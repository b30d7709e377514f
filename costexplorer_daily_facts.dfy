/**
 * Properties of the `aws_ce_daily` source: its defaults settle after one `Init`, a group's
 * fields do not depend on the order its metrics are visited in, every metric must be in USD,
 * and each group name tags the key at its position.
 */
module CostExplorerDailyFacts {
  import opened Wrappers
  import opened Util
  import opened Config
  import opened Metric
  import opened CostExplorerDaily

  /** Applying the defaults twice is applying them once, and leaves a non-empty list. */
  lemma DefaultsSettle(s: seq<string>, defaults: seq<string>)
    requires |defaults| > 0
    ensures Defaulted(Defaulted(s, defaults), defaults) == Defaulted(s, defaults)
    ensures |Defaulted(s, defaults)| > 0
  {
  }

  /**
   * A group's metrics, visited in some order: the pass succeeds exactly when every visited
   * metric is in USD and parses.
   */
  lemma {:induction false} MetricFieldsSucceed(metrics: map<string, MetricValue>, order: seq<string>)
    requires forall k :: k in order ==> k in metrics
    ensures MetricFields(metrics, order).Success? <==> forall i :: 0 <= i < |order| ==> MetricField(metrics[order[i]]).Success?
    decreases |order|
  {
    if |order| > 0 {
      var n := |order| - 1;
      assert forall i :: 0 <= i < n ==> order[..n][i] == order[i];
      MetricFieldsSucceed(metrics, order[..n]);
    }
  }

  /** A pass that succeeds holds exactly the visited metrics' fields, whatever the order. */
  lemma {:induction false} MetricFieldsHold(metrics: map<string, MetricValue>, order: seq<string>)
    requires forall k :: k in order ==> k in metrics
    requires forall k :: k in order ==> MetricField(metrics[k]).Success?
    ensures MetricFields(metrics, order).Success?
    ensures MetricFields(metrics, order).value == map k | k in metrics && k in order :: MetricField(metrics[k]).value
    decreases |order|
  {
    MetricFieldsSucceed(metrics, order);
    if |order| > 0 {
      var n := |order| - 1;
      var prefix := order[..n];
      MetricFieldsHold(metrics, prefix);
      assert forall k :: k in order <==> k in prefix || k == order[n];
    }
  }

  /** When the pass fails, it is with the error of the first visited metric that fails. */
  lemma {:induction false} MetricFieldsFail(metrics: map<string, MetricValue>, order: seq<string>)
    requires forall k :: k in order ==> k in metrics
    requires MetricFields(metrics, order).Failure?
    ensures exists i :: 0 <= i < |order| && MetricField(metrics[order[i]]) == Failure(MetricFields(metrics, order).error)
                        && forall j :: 0 <= j < i ==> MetricField(metrics[order[j]]).Success?
    decreases |order|
  {
    var n := |order| - 1;
    var prefix := order[..n];
    assert forall i :: 0 <= i < n ==> prefix[i] == order[i];
    if MetricFields(metrics, prefix).Failure? {
      MetricFieldsFail(metrics, prefix);
      var i :| 0 <= i < n && MetricField(metrics[prefix[i]]) == Failure(MetricFields(metrics, prefix).error)
               && forall j :: 0 <= j < i ==> MetricField(metrics[prefix[j]]).Success?;
      assert order[i] == prefix[i];
    } else {
      MetricFieldsSucceed(metrics, prefix);
    }
  }

  /**
   * A group's data point is made exactly when every metric of the group is in USD and its
   * amount parses, whatever the order they are visited in; so one metric in another currency
   * makes it fail.
   */
  lemma UsageStatsSucceeds(groups: seq<string>, now: Time, group: Group, order: seq<string>)
    requires |group.keys| >= |groups|
    requires Enumerates(order, group.metrics)
    ensures UsageStatsOf(groups, now, group, order).Success? <==>
      forall k :: k in group.metrics ==> MetricField(group.metrics[k]).Success?
    ensures (exists k :: k in group.metrics && group.metrics[k].unit != "USD") ==>
      UsageStatsOf(groups, now, group, order).Failure?
  {
    MetricFieldsSucceed(group.metrics, order);
    if MetricFields(group.metrics, order).Success? {
      forall k | k in group.metrics
        ensures MetricField(group.metrics[k]).Success?
      {
        var i :| 0 <= i < |order| && order[i] == k;
      }
    } else {
      var i :| 0 <= i < |order| && !MetricField(group.metrics[order[i]]).Success?;
    }
  }

  /**
   * A group whose metrics are all in USD and parse makes a data point dated 24 hours before `now`, carrying the
   * group's tags and holds one field per metric with that metric's amount.
   */
  lemma UsageStatsHolds(groups: seq<string>, now: Time, group: Group, order: seq<string>)
    requires |group.keys| >= |groups|
    requires Enumerates(order, group.metrics)
    requires forall k :: k in group.metrics ==> group.metrics[k].unit == "USD" && group.metrics[k].amount.parsed.Success?
    ensures UsageStatsOf(groups, now, group, order).Success?
    ensures var d := UsageStatsOf(groups, now, group, order).value;
      && d.name == CostMetricName && d.time == now - 24 * Hour
      && d.tags == GroupTags(groups, group.keys)
      && d.fields == map k | k in group.metrics :: FloatValue(group.metrics[k].amount.parsed.value)
  {
    UsageStatsSucceeds(groups, now, group, order);
    MetricFieldsHold(group.metrics, order);
  }

  /** Every group's lower-cased name is a tag. */
  lemma {:induction false} GroupTagsNamed(groups: seq<string>, keys: seq<string>)
    requires |keys| >= |groups|
    ensures forall i :: 0 <= i < |groups| ==> Lower(groups[i]) in GroupTags(groups, keys)
    decreases |groups|
  {
    if |groups| > 0 {
      var n := |groups| - 1;
      assert forall i :: 0 <= i < n ==> groups[..n][i] == groups[i];
      GroupTagsNamed(groups[..n], keys);
    }
  }

  /** A tag holds the key at the position of the last group with that lower-cased name. */
  lemma {:induction false} GroupTagsValue(groups: seq<string>, keys: seq<string>, i: nat)
    requires |keys| >= |groups| && i < |groups|
    requires forall j :: i < j < |groups| ==> Lower(groups[j]) != Lower(groups[i])
    ensures Lower(groups[i]) in GroupTags(groups, keys) && GroupTags(groups, keys)[Lower(groups[i])] == keys[i]
    decreases |groups|
  {
    var n := |groups| - 1;
    if i < n {
      assert forall j :: 0 <= j < n ==> groups[..n][j] == groups[j];
      GroupTagsValue(groups[..n], keys, i);
    }
  }

  /** No tag but a group's lower-cased name. */
  lemma {:induction false} GroupTagsOnlyNames(groups: seq<string>, keys: seq<string>)
    requires |keys| >= |groups|
    ensures forall k :: k in GroupTags(groups, keys) ==> exists i :: 0 <= i < |groups| && k == Lower(groups[i])
    decreases |groups|
  {
    if |groups| > 0 {
      var n := |groups| - 1;
      assert forall j :: 0 <= j < n ==> groups[..n][j] == groups[j];
      GroupTagsOnlyNames(groups[..n], keys);
    }
  }

  /** The default groups tag a result's keys as `service` and `az`. */
  lemma DefaultGroupTags(service: string, az: string, rest: seq<string>)
    ensures GroupTags(DefaultGroups, [service, az] + rest) == map["service" := service, "az" := az]
  {
    assert DefaultGroups[..1] == ["SERVICE"] && ["SERVICE"][..0] == [];
    assert Lower("SERVICE") == "service" && Lower("AZ") == "az";
  }

  /**
   * A plugin declared with no lists, initialised and then run against a reply of one group in
   * USD: the default groups are requested and the group's single data point is recorded, tagged
   * `service` and `az`.
   */
  method InitThenSource(now: Time, service: string, az: string) returns (recorded: seq<Datum>, err: Option<string>)
    ensures err == None
    ensures recorded == [Datum(CostMetricName, now - 24 * Hour, map["service" := service, "az" := az],
                               map["BlendedCost" := FloatValue("1.5")])]
  {
    var plugin := new Daily([], []);
    var _ := plugin.Init();
    var group := Group([service, az], map["BlendedCost" := MetricValue("USD", Amount("1.5", Success("1.5")))]);
    DefaultGroupTags(service, az, []);
    assert [service, az] + [] == [service, az];
    assert MetricFields(group.metrics, ["BlendedCost"][..0]) == Success(map[]);
    assert UsageStatsOf(DefaultGroups, now, group, ["BlendedCost"]).Success?;
    recorded, err := plugin.Source(now, input => Success([group]), g => ["BlendedCost"]);
  }
}
