/**
 * The `aws_ce_daily` source (plugins/source/aws/costexplorer/daily.go): its defaults, the
 * Cost Explorer request it builds, and `usageStats`, which turns one cost group into one
 * `aws_ce_daily_cost` data point. The Cost Explorer call itself is an input.
 */
module CostExplorerDaily {
  import opened Wrappers
  import opened Util
  import opened Config
  import opened Metric

  const CostMetricName := "aws_ce_daily_cost"
  const DefaultMetrics: seq<string> := ["AmortizedCost", "BlendedCost", "UnblendedCost"]
  const DefaultGroups: seq<string> := ["SERVICE", "AZ"]

  /** A list option: the defaults when it is empty, and otherwise as configured. */
  function Defaulted(s: seq<string>, defaults: seq<string>): (r: seq<string>)
    ensures |s| > 0 ==> r == s
    ensures |s| == 0 ==> r == defaults
  {
    if |s| == 0 then defaults else s
  }

  /** A `GroupDefinition` of the request. */
  datatype GroupDefinition = GroupDefinition(kind: string, key: string)

  /**
   * A `GetCostAndUsageInput`. `start` and `end` are the instants whose UTC dates the request
   * carries; writing them as dates is not modelled.
   */
  datatype CostAndUsageInput = CostAndUsageInput(granularity: string, groupBy: seq<GroupDefinition>,
                                                 metrics: seq<string>, start: Time, end: Time)

  /** An amount as text, with what `strconv.ParseFloat` makes of it: the number's `FormatFloat` text, or the error. */
  datatype Amount = Amount(text: string, parsed: Result<string, string>)

  datatype MetricValue = MetricValue(unit: string, amount: Amount)

  /** A result group: the values of its group keys, in the order of the request's groups, and its metrics. */
  datatype Group = Group(keys: seq<string>, metrics: map<string, MetricValue>)

  /** `strings.ToLower`, for ASCII letters. */
  function LowerChar(c: char): char {
    if 'A' <= c <= 'Z' then (c as int - 'A' as int + 'a' as int) as char else c
  }

  function Lower(s: string): (r: string)
    ensures |r| == |s| && forall i :: 0 <= i < |s| ==> r[i] == LowerChar(s[i])
  {
    seq(|s|, i requires 0 <= i < |s| => LowerChar(s[i]))
  }

  /** The tags of a group: `lower(groups[i]) := keys[i]` for each group in turn. */
  function GroupTags(groups: seq<string>, keys: seq<string>): map<string, string>
    requires |keys| >= |groups|
    decreases |groups|
  {
    if |groups| == 0 then map[]
    else GroupTags(groups[..|groups| - 1], keys)[Lower(groups[|groups| - 1]) := keys[|groups| - 1]]
  }

  /** The field of one metric, or its error: the unit must be "USD" and the amount must parse. */
  function MetricField(data: MetricValue): Result<FieldValue, string> {
    if data.unit != "USD" then Failure("expected USD, but got " + data.unit)
    else
      match data.amount.parsed
      case Failure(e) => Failure(Wrap(e, "parse amount: " + data.amount.text))
      case Success(text) => Success(FloatValue(text))
  }

  /** The fields of a group's metrics, visited in `order`, up to the first error. */
  function MetricFields(metrics: map<string, MetricValue>, order: seq<string>): Result<map<string, FieldValue>, string>
    requires forall k :: k in order ==> k in metrics
    decreases |order|
  {
    if |order| == 0 then Success(map[])
    else
      var name := order[|order| - 1];
      match MetricFields(metrics, order[..|order| - 1])
      case Failure(e) => Failure(e)
      case Success(fields) =>
        match MetricField(metrics[name])
        case Failure(e) => Failure(e)
        case Success(v) => Success(fields[name := v])
  }

  /** What `usageStats` returns for a group, its metrics visited in `order`. */
  function UsageStatsOf(groups: seq<string>, now: Time, group: Group, order: seq<string>): Result<Datum, string>
    requires |group.keys| >= |groups|
    requires forall k :: k in order ==> k in group.metrics
  {
    match MetricFields(group.metrics, order)
    case Failure(e) => Failure(e)
    case Success(fields) => Success(Datum(CostMetricName, now - 24 * Hour, GroupTags(groups, group.keys), fields))
  }

  /** The request for the day that ended 24 hours before `now`. */
  function CostRequest(metrics: seq<string>, groups: seq<string>, now: Time): CostAndUsageInput {
    CostAndUsageInput("DAILY", seq(|groups|, i requires 0 <= i < |groups| => GroupDefinition("DIMENSION", groups[i])),
                      metrics, now - 48 * Hour, now - 24 * Hour)
  }

  class Daily {
    var metrics: seq<string>
    var groups: seq<string>

    /** The plugin as its configuration declares it. */
    constructor (metrics: seq<string>, groups: seq<string>)
      ensures this.metrics == metrics && this.groups == groups
    {
      this.metrics := metrics;
      this.groups := groups;
    }

    /** `Init`: fills in the default metrics and groups where none are configured. It never fails. */
    method Init() returns (err: Option<string>)
      modifies this
      ensures metrics == Defaulted(old(metrics), DefaultMetrics) && groups == Defaulted(old(groups), DefaultGroups)
      ensures err == None
    {
      if |metrics| == 0 {
        metrics := DefaultMetrics;
      }
      if |groups| == 0 {
        groups := DefaultGroups;
      }
      err := None;
    }

    /** The request `Source` sends, built group by group; with no group it fails before any request. */
    method Request(now: Time) returns (r: Result<CostAndUsageInput, string>)
      ensures |groups| == 0 ==> r == Failure("at least one group is required")
      ensures |groups| > 0 ==>
        && r.Success? && r.value.granularity == "DAILY" && r.value.metrics == metrics
        && r.value.start == now - 48 * Hour && r.value.end == now - 24 * Hour
        && |r.value.groupBy| == |groups|
        && forall i :: 0 <= i < |groups| ==> r.value.groupBy[i] == GroupDefinition("DIMENSION", groups[i])
      ensures r.Success? ==> r.value == CostRequest(metrics, groups, now)
    {
      if |groups| == 0 {
        return Failure("at least one group is required");
      }
      var groupBy: seq<GroupDefinition> := [];
      for i := 0 to |groups|
        invariant |groupBy| == i && forall j :: 0 <= j < i ==> groupBy[j] == GroupDefinition("DIMENSION", groups[j])
      {
        groupBy := groupBy + [GroupDefinition("DIMENSION", groups[i])];
      }
      r := Success(CostAndUsageInput("DAILY", groupBy, metrics, now - 48 * Hour, now - 24 * Hour));
    }

    /**
     * `usageStats`: tags the group's keys under the lower-cased group names, then adds each
     * metric, visited in `order`, failing on the first that is not in USD or does not parse.
     */
    method UsageStats(now: Time, group: Group, order: seq<string>) returns (d: Datum, err: Option<string>)
      requires |group.keys| >= |groups|
      requires Enumerates(order, group.metrics)
      ensures match UsageStatsOf(groups, now, group, order)
        case Success(r) => err == None && d == r
        case Failure(e) => err == Some(e) && d == EmptyDatum
    {
      var tags: map<string, string> := map[];
      assert groups[..0] == [];
      for i := 0 to |groups|
        invariant tags == GroupTags(groups[..i], group.keys)
      {
        assert groups[..i + 1][..i] == groups[..i];
        tags := tags[Lower(groups[i]) := group.keys[i]];
      }
      assert groups[..|groups|] == groups;
      var fields: map<string, FieldValue> := map[];
      assert order[..0] == [];
      for i := 0 to |order|
        invariant MetricFields(group.metrics, order[..i]) == Success(fields)
      {
        assert order[..i + 1][..i] == order[..i];
        var data := group.metrics[order[i]];
        if data.unit != "USD" {
          MetricFailureStays(group.metrics, order, i + 1);
          return EmptyDatum, Some("expected USD, but got " + data.unit);
        }
        if data.amount.parsed.Failure? {
          MetricFailureStays(group.metrics, order, i + 1);
          return EmptyDatum, Some(Wrap(data.amount.parsed.error, "parse amount: " + data.amount.text));
        }
        fields := fields[order[i] := FloatValue(data.amount.parsed.value)];
      }
      assert order[..|order|] == order;
      d, err := Datum(CostMetricName, now - 24 * Hour, tags, fields), None;
    }

    /**
     * `Source`: builds the request, sends it (`getCostAndUsage` stands for the call and the
     * groups of its first result), and records the data point of each group in turn, up to
     * the first error. Each group of the reply carries a key per requested group, as
     * `usageStats` indexes them, and `order` visits each group's metrics once.
     */
    method Source(now: Time, getCostAndUsage: CostAndUsageInput -> Result<seq<Group>, string>,
                  order: Group -> seq<string>) returns (recorded: seq<Datum>, err: Option<string>)
      requires getCostAndUsage(CostRequest(metrics, groups, now)).Success? ==>
        forall g <- getCostAndUsage(CostRequest(metrics, groups, now)).value ::
          |g.keys| >= |groups| && Enumerates(order(g), g.metrics)
      ensures |groups| == 0 ==> recorded == [] && err == Some("at least one group is required")
      ensures |groups| > 0 && getCostAndUsage(CostRequest(metrics, groups, now)).Failure? ==>
        recorded == [] && err == Some(getCostAndUsage(CostRequest(metrics, groups, now)).error)
      ensures |groups| > 0 && getCostAndUsage(CostRequest(metrics, groups, now)).Success? ==>
        var reply := getCostAndUsage(CostRequest(metrics, groups, now)).value;
        && |recorded| <= |reply|
        && (forall i :: 0 <= i < |recorded| ==>
              Enumerates(order(reply[i]), reply[i].metrics)
              && UsageStatsOf(groups, now, reply[i], order(reply[i])) == Success(recorded[i]))
        && (err.None? ==> |recorded| == |reply|)
        && (err.Some? ==>
              |recorded| < |reply| && Enumerates(order(reply[|recorded|]), reply[|recorded|].metrics)
              && UsageStatsOf(groups, now, reply[|recorded|], order(reply[|recorded|])) == Failure(err.value))
    {
      var input := Request(now);
      if input.Failure? {
        return [], Some(input.error);
      }
      var out := getCostAndUsage(input.value);
      if out.Failure? {
        return [], Some(out.error);
      }
      recorded := [];
      for i := 0 to |out.value|
        invariant |recorded| == i
        invariant forall j :: 0 <= j < i ==>
          Enumerates(order(out.value[j]), out.value[j].metrics) &&
          UsageStatsOf(groups, now, out.value[j], order(out.value[j])) == Success(recorded[j])
      {
        var datum, e := UsageStats(now, out.value[i], order(out.value[i]));
        if e.Some? {
          return recorded, e;
        }
        recorded := recorded + [datum];
      }
      err := None;
    }
  }

  /** Once a metric fails, that error is the outcome of the whole pass. */
  lemma {:induction false} MetricFailureStays(metrics: map<string, MetricValue>, order: seq<string>, n: nat)
    requires 0 < n <= |order| && forall k :: k in order ==> k in metrics
    requires MetricFields(metrics, order[..n - 1]).Success? && MetricField(metrics[order[n - 1]]).Failure?
    ensures MetricFields(metrics, order) == Failure(MetricField(metrics[order[n - 1]]).error)
    decreases |order| - n
  {
    assert order[..n][..n - 1] == order[..n - 1];
    if n < |order| {
      assert order[..|order| - 1][..n - 1] == order[..n - 1];
      MetricFailureStays(metrics, order[..|order| - 1], n);
    } else {
      assert order[..n] == order;
    }
  }
}
