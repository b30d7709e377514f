/**
 * `connectionStats` of the `aws_ec2_clientvpn` source (plugins/source/aws/ec2/clientvpn.go):
 * one Client VPN connection becomes one `aws_ec2_clientvpn_connection` data point. Its byte
 * and packet counters arrive as decimal strings.
 */
module Ec2ClientVpn {
  import opened Wrappers
  import opened Util
  import opened Decimal
  import opened Metric

  const ConnectionMetricName := "aws_ec2_clientvpn_connection"

  /** A connection as `DescribeClientVpnConnections` reports it; absent strings are nil. */
  datatype Connection = Connection(
    endpointId: string,
    commonName: Option<string>,
    statusCode: string,
    username: Option<string>,
    establishedTime: TimeText,
    egressBytes: Option<string>,
    egressPackets: Option<string>,
    ingressBytes: Option<string>,
    ingressPackets: Option<string>)

  /** The table `i64Fields`: each counter's text and the field it goes to, in this order. */
  function CounterTable(c: Connection): seq<(Option<string>, string)> {
    [(c.egressBytes, "egress_bytes"), (c.egressPackets, "egress_packets"),
     (c.ingressBytes, "ingress_bytes"), (c.ingressPackets, "ingress_packets")]
  }

  /** A counter's field: present when its text is there and reads as a signed 64-bit decimal. */
  function CounterValue(text: Option<string>): Option<int> {
    if text.Some? then ParseInt64(text.value) else None
  }

  /** The fields `m` with each counter of `table` that reads set as an `int64`. */
  function WithCounters(m: map<string, FieldValue>, table: seq<(Option<string>, string)>): map<string, FieldValue>
    decreases |table|
  {
    if |table| == 0 then m
    else
      var before := WithCounters(m, table[..|table| - 1]);
      var entry := table[|table| - 1];
      match CounterValue(entry.0)
      case Some(b) => before[entry.1 := IntValue(Int64, b)]
      case None => before
  }

  function ConnectionTags(c: Connection): map<string, string> {
    var t0 := map["endpoint_id" := c.endpointId];
    var t1 := if c.commonName.Some? then t0["common_name" := c.commonName.value] else t0;
    var t2 := t1["status" := c.statusCode];
    if c.username.Some? then t2["username" := c.username.value] else t2
  }

  function ConnectionFields(now: Time, c: Connection): map<string, FieldValue> {
    var age: map<string, FieldValue> :=
      if c.establishedTime.parsed.Success? then map["age" := DurationValue(now - c.establishedTime.parsed.value)]
      else map[];
    WithCounters(age, CounterTable(c))
  }

  /**
   * `connectionStats`: the tags, then the age when the established time parses, then each
   * counter that is present and parses. It never returns an error.
   */
  method ConnectionStats(now: Time, c: Connection) returns (d: Datum, err: Option<string>)
    ensures err == None
    ensures d == Datum(ConnectionMetricName, now, ConnectionTags(c), ConnectionFields(now, c))
  {
    var tags: map<string, string> := map[];
    var fields: map<string, FieldValue> := map[];
    tags := tags["endpoint_id" := c.endpointId];
    if c.commonName.Some? {
      tags := tags["common_name" := c.commonName.value];
    }
    tags := tags["status" := c.statusCode];
    if c.username.Some? {
      tags := tags["username" := c.username.value];
    }
    if c.establishedTime.parsed.Success? {
      fields := fields["age" := DurationValue(now - c.establishedTime.parsed.value)];
    }
    ghost var age := fields;
    var table := CounterTable(c);
    assert table[..0] == [];
    for i := 0 to |table|
      invariant fields == WithCounters(age, table[..i])
    {
      assert table[..i + 1][..i] == table[..i];
      if table[i].0.Some? {
        var b := ParseInt64(table[i].0.value);
        if b.Some? {
          fields := fields[table[i].1 := IntValue(Int64, b.value)];
        }
      }
    }
    assert table[..|table|] == table;
    d, err := Datum(ConnectionMetricName, now, tags, fields), None;
  }

  /**
   * Counters with distinct field names: each name is set exactly when it was already or its
   * text is present and parses, then holding the parsed value, whatever the other counters hold.
   */
  lemma {:induction false} WithCountersSets(m: map<string, FieldValue>, table: seq<(Option<string>, string)>)
    requires forall i, j :: 0 <= i < j < |table| ==> table[i].1 != table[j].1
    ensures var r := WithCounters(m, table);
      && (forall i :: 0 <= i < |table| ==> (table[i].1 in r <==> table[i].1 in m || CounterValue(table[i].0).Some?))
      && (forall i :: 0 <= i < |table| && CounterValue(table[i].0).Some? ==>
            r[table[i].1] == IntValue(Int64, CounterValue(table[i].0).value))
    decreases |table|
  {
    if |table| > 0 {
      var n := |table| - 1;
      WithCountersSets(m, table[..n]);
      assert forall i :: 0 <= i < n ==> table[..n][i] == table[i];
      WithCountersKeeps(m, table[..n], table[n].1);
    }
  }

  /** A key that is no counter's field name keeps its presence and its value. */
  lemma {:induction false} WithCountersKeeps(m: map<string, FieldValue>, table: seq<(Option<string>, string)>, k: string)
    requires forall i :: 0 <= i < |table| ==> table[i].1 != k
    ensures (k in WithCounters(m, table) <==> k in m) && (k in m ==> WithCounters(m, table)[k] == m[k])
    decreases |table|
  {
    if |table| > 0 {
      var n := |table| - 1;
      assert forall i :: 0 <= i < n ==> table[..n][i] == table[i];
      WithCountersKeeps(m, table[..n], k);
    }
  }

  /** Setting counters adds no key but their field names. */
  lemma {:induction false} WithCountersAddsOnlyNames(m: map<string, FieldValue>, table: seq<(Option<string>, string)>)
    ensures var r := WithCounters(m, table);
      forall k :: k in r ==> k in m || exists i :: 0 <= i < |table| && table[i].1 == k
    decreases |table|
  {
    if |table| > 0 {
      var n := |table| - 1;
      WithCountersAddsOnlyNames(m, table[..n]);
      assert forall i :: 0 <= i < n ==> table[..n][i] == table[i];
    }
  }

  /** The tags of a connection: `endpoint_id` and `status` always, `common_name` and `username` when given. */
  lemma ConnectionTagsFacts(c: Connection)
    ensures var t := ConnectionTags(c);
      && t.Keys == {"endpoint_id", "status"} + (if c.commonName.Some? then {"common_name"} else {})
                   + (if c.username.Some? then {"username"} else {})
      && t["endpoint_id"] == c.endpointId && t["status"] == c.statusCode
      && (c.commonName.Some? ==> t["common_name"] == c.commonName.value)
      && (c.username.Some? ==> t["username"] == c.username.value)
  {
  }

  /**
   * The fields of a connection: `age` exactly when the established time parses, and each of
   * the four counters exactly when its text is there and reads as an `int64`, independently
   * of the others; nothing else.
   */
  lemma ConnectionFieldsFacts(now: Time, c: Connection)
    ensures var f := ConnectionFields(now, c);
      && ("age" in f <==> c.establishedTime.parsed.Success?)
      && (c.establishedTime.parsed.Success? ==> f["age"] == DurationValue(now - c.establishedTime.parsed.value))
      && (forall i :: 0 <= i < 4 ==>
            var e := CounterTable(c)[i];
            (e.1 in f <==> CounterValue(e.0).Some?)
            && (CounterValue(e.0).Some? ==> f[e.1] == IntValue(Int64, CounterValue(e.0).value)))
      && f.Keys <= {"age", "egress_bytes", "egress_packets", "ingress_bytes", "ingress_packets"}
  {
    var table := CounterTable(c);
    var age: map<string, FieldValue> :=
      if c.establishedTime.parsed.Success? then map["age" := DurationValue(now - c.establishedTime.parsed.value)]
      else map[];
    WithCountersSets(age, table);
    WithCountersAddsOnlyNames(age, table);
    WithCountersKeeps(age, table, "age");
  }
}
