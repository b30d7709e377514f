/**
 * Properties of the `aws_cloudwatch_log_groups` data points: which tags and fields a group
 * gets, that the retention tag reads back as the number of days, how far the age can be off
 * once the milliseconds are dropped, and that every delivered group is recorded in order.
 */
module LogGroupsFacts {
  import opened Wrappers
  import opened Util
  import opened Decimal
  import opened Metric
  import opened LogGroups

  /** The tags: `name` always, and `retention` exactly when it is not omitted. */
  lemma LogGroupTagsFacts(plugin: LogGroupsPlugin, g: LogGroup)
    ensures var t := LogGroupTags(plugin, g);
      && t.Keys == {"name"} + (if plugin.omitRetentionTag then {} else {"retention"})
      && t["name"] == g.name
      && (!plugin.omitRetentionTag && !HasRetention(g) ==> t["retention"] == "infinite")
  {
  }

  /**
   * A retention tag of days reads back as that number: it is the decimal text of the days
   * followed by `d`, and never `infinite`.
   */
  lemma RetentionTagReadsBack(g: LogGroup)
    requires HasRetention(g) && Int64Min <= g.retentionInDays.value <= Int64Max
    ensures var t := RetentionTag(g);
      && |t| > 0 && t[|t| - 1] == 'd' && ParseInt64(t[..|t| - 1]) == Some(g.retentionInDays.value)
      && t != "infinite"
  {
    var t := RetentionTag(g);
    var n := FormatInt(g.retentionInDays.value);
    assert t[..|t| - 1] == n;
    ParseFormatInt(g.retentionInDays.value);
    assert "infinite"[|"infinite"| - 1] == 'e';
  }

  /**
   * The fields: `age`, `metric_filter_count` and `stored_bytes` always, with `0` for an
   * absent count, and `retention_in_days` exactly when a non-zero retention is set.
   */
  lemma LogGroupFieldsFacts(now: Time, g: LogGroup)
    ensures var f := LogGroupFields(now, g);
      && f.Keys == {"age", "metric_filter_count", "stored_bytes"} + (if HasRetention(g) then {"retention_in_days"} else {})
      && f["age"] == DurationValue(now - Created(g))
      && (HasRetention(g) ==> f["retention_in_days"] == IntValue(Int64, g.retentionInDays.value))
      && f["metric_filter_count"] == (if g.metricFilterCount.Some? then IntValue(Int64, g.metricFilterCount.value) else IntValue(Int, 0))
      && f["stored_bytes"] == (if g.storedBytes.Some? then IntValue(Int64, g.storedBytes.value) else IntValue(Int, 0))
  {
  }

  /**
   * Dropping the milliseconds moves the creation instant toward the epoch by less than a
   * second, so for a group created after the epoch the age is at most a second longer than
   * the exact one and never shorter.
   */
  lemma CreatedWithinASecond(g: LogGroup)
    ensures var exact := g.creationTime * 1_000_000;
      && (g.creationTime >= 0 ==> Created(g) <= exact < Created(g) + Second)
      && (g.creationTime < 0 ==> Created(g) - Second < exact <= Created(g))
  {
  }

  /** Truncation, not flooring: 1.5 s after the epoch is 1 s, and 1.5 s before it is -1 s. */
  lemma MillisToSecondsExamples()
    ensures MillisToSeconds(1500) == 1 && MillisToSeconds(-1500) == -1 && MillisToSeconds(999) == 0
    ensures -1500 / 1000 == -2
  {
  }

  /** The data points of two runs of pages, one after the other. */
  lemma {:induction false} PagesStatsAppend(plugin: LogGroupsPlugin, now: Time, a: seq<seq<LogGroup>>, b: seq<seq<LogGroup>>)
    ensures PagesStats(plugin, now, a + b) == PagesStats(plugin, now, a) + PagesStats(plugin, now, b)
    decreases |b|
  {
    if |b| == 0 {
      assert a + b == a;
    } else {
      var n := |b| - 1;
      assert (a + b)[..|a + b| - 1] == a + b[..n];
      assert (a + b)[|a + b| - 1] == b[n];
      PagesStatsAppend(plugin, now, a, b[..n]);
    }
  }

  /** Every group of every delivered page has its data point recorded, at its place in the run. */
  lemma {:induction false} EveryGroupRecorded(plugin: LogGroupsPlugin, now: Time, pages: seq<seq<LogGroup>>, p: nat, i: nat)
    requires p < |pages| && i < |pages[p]|
    ensures var before := PagesStats(plugin, now, pages[..p]);
      |before| + i < |PagesStats(plugin, now, pages)|
      && PagesStats(plugin, now, pages)[|before| + i] == LogGroupStatsOf(plugin, now, pages[p][i])
  {
    assert pages == pages[..p] + ([pages[p]] + pages[p + 1..]);
    PagesStatsAppend(plugin, now, pages[..p], [pages[p]] + pages[p + 1..]);
    PagesStatsAppend(plugin, now, [pages[p]], pages[p + 1..]);
    assert [pages[p]][..0] == [];
  }
}
