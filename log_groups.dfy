/**
 * The `aws_cloudwatch_log_groups` source (plugins/source/aws/cloudwatch/logs/log_groups.go):
 * each log group becomes one `aws_cloudwatch_log_group` data point with its age, retention,
 * metric filter count and stored bytes. The paged `DescribeLogGroups` call is an input: the
 * pages it delivered and the error it ended with, if any.
 */
module LogGroups {
  import opened Wrappers
  import opened Util
  import opened Decimal
  import opened Metric

  const LogGroupMetricName := "aws_cloudwatch_log_group"

  /** The plugin's option. */
  datatype LogGroupsPlugin = LogGroupsPlugin(omitRetentionTag: bool)

  /**
   * A log group as `DescribeLogGroups` reports it. `creationTime` is in milliseconds since the
   * Unix epoch; the counts are `int64` values that may be absent (nil).
   */
  datatype LogGroup = LogGroup(name: string, creationTime: int, retentionInDays: Option<int>,
                               metricFilterCount: Option<int>, storedBytes: Option<int>)

  /** Go's `ms / 1000` on `int64`, which truncates toward zero: whole seconds, the sign kept. */
  function MillisToSeconds(ms: int): (r: int)
    ensures ms >= 0 ==> 0 <= r * 1000 <= ms < r * 1000 + 1000
    ensures ms < 0 ==> r * 1000 - 1000 < ms <= r * 1000 <= 0
  {
    if ms >= 0 then ms / 1000 else -((-ms) / 1000)
  }

  /** The group's creation as an instant: `time.Unix(creationTime/1000, 0)`, dropping the milliseconds. */
  function Created(g: LogGroup): Time {
    Unix(MillisToSeconds(g.creationTime))
  }

  /** Whether the group expires its events: a retention is set and is not zero. */
  predicate HasRetention(g: LogGroup) {
    g.retentionInDays.Some? && g.retentionInDays.value != 0
  }

  /** The `retention` tag: the number of days followed by `d`, or `infinite`. */
  function RetentionTag(g: LogGroup): string {
    if HasRetention(g) then FormatInt(g.retentionInDays.value) + "d" else "infinite"
  }

  /** A count that may be absent: the plain integer `0` when it is, and the `int64` otherwise. */
  function CountField(n: Option<int>): FieldValue {
    if n.Some? then IntValue(Int64, n.value) else IntValue(Int, 0)
  }

  function LogGroupTags(plugin: LogGroupsPlugin, g: LogGroup): map<string, string> {
    var tags := map["name" := g.name];
    if plugin.omitRetentionTag then tags else tags["retention" := RetentionTag(g)]
  }

  function LogGroupFields(now: Time, g: LogGroup): map<string, FieldValue> {
    var age := map["age" := DurationValue(now - Created(g))];
    var retention := if HasRetention(g) then age["retention_in_days" := IntValue(Int64, g.retentionInDays.value)] else age;
    retention["metric_filter_count" := CountField(g.metricFilterCount)]["stored_bytes" := CountField(g.storedBytes)]
  }

  function LogGroupStatsOf(plugin: LogGroupsPlugin, now: Time, g: LogGroup): Datum {
    Datum(LogGroupMetricName, now, LogGroupTags(plugin, g), LogGroupFields(now, g))
  }

  /**
   * `logGroupStats`: the name tag and the age, the retention as a field when it is set and
   * as a tag unless omitted, then the two counts with `0` standing for an absent one. It
   * never returns an error.
   */
  method LogGroupStats(plugin: LogGroupsPlugin, now: Time, g: LogGroup) returns (d: Datum, err: Option<string>)
    ensures err == None
    ensures d == LogGroupStatsOf(plugin, now, g)
  {
    var tags: map<string, string> := map[];
    var fields: map<string, FieldValue> := map[];
    tags := tags["name" := g.name];
    fields := fields["age" := DurationValue(now - Unix(MillisToSeconds(g.creationTime)))];
    var hasRetention := g.retentionInDays.Some? && g.retentionInDays.value != 0;
    if hasRetention {
      fields := fields["retention_in_days" := IntValue(Int64, g.retentionInDays.value)];
    }
    if !plugin.omitRetentionTag {
      if hasRetention {
        tags := tags["retention" := FormatInt(g.retentionInDays.value) + "d"];
      } else {
        tags := tags["retention" := "infinite"];
      }
    }
    fields := fields["metric_filter_count" := IntValue(Int, 0)];
    if g.metricFilterCount.Some? {
      fields := fields["metric_filter_count" := IntValue(Int64, g.metricFilterCount.value)];
    }
    fields := fields["stored_bytes" := IntValue(Int, 0)];
    if g.storedBytes.Some? {
      fields := fields["stored_bytes" := IntValue(Int64, g.storedBytes.value)];
    }
    d, err := Datum(LogGroupMetricName, now, tags, fields), None;
  }

  /** The data points of a run of pages, page by page and in each page group by group. */
  function PagesStats(plugin: LogGroupsPlugin, now: Time, pages: seq<seq<LogGroup>>): seq<Datum>
    decreases |pages|
  {
    if |pages| == 0 then []
    else
      var page := pages[|pages| - 1];
      PagesStats(plugin, now, pages[..|pages| - 1]) + seq(|page|, i requires 0 <= i < |page| => LogGroupStatsOf(plugin, now, page[i]))
  }

  /** The page callback: records every group of the page, in order. */
  method RecordPage(plugin: LogGroupsPlugin, now: Time, page: seq<LogGroup>) returns (recorded: seq<Datum>)
    ensures |recorded| == |page|
    ensures forall i :: 0 <= i < |page| ==> recorded[i] == LogGroupStatsOf(plugin, now, page[i])
  {
    recorded := [];
    for i := 0 to |page|
      invariant |recorded| == i
      invariant forall j :: 0 <= j < i ==> recorded[j] == LogGroupStatsOf(plugin, now, page[j])
    {
      var d, _ := LogGroupStats(plugin, now, page[i]);
      recorded := recorded + [d];
    }
  }

  /**
   * `Source`: records the data point of every group of every page delivered, and returns the
   * paging call's own error.
   */
  method Source(plugin: LogGroupsPlugin, now: Time, pages: seq<seq<LogGroup>>, pagingError: Option<string>)
    returns (recorded: seq<Datum>, err: Option<string>)
    ensures recorded == PagesStats(plugin, now, pages)
    ensures err == pagingError
  {
    recorded := [];
    assert pages[..0] == [];
    for p := 0 to |pages|
      invariant recorded == PagesStats(plugin, now, pages[..p])
    {
      var page := RecordPage(plugin, now, pages[p]);
      assert pages[..p + 1][..p] == pages[..p];
      recorded := recorded + page;
    }
    assert pages[..|pages|] == pages;
    err := pagingError;
  }
}
