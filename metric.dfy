/**
 * The metric data point and its serialisation to one line of the InfluxDB line protocol,
 * as pkg/metric/metric.go writes it: `Datum.ToInfluxDBLineProtocol` with `encodeField`.
 * This writer sorts tags and fields by key and escapes nothing.
 */
module Metric {
  import opened Wrappers
  import opened Decimal
  import opened Keys
  import opened Util

  datatype IntKind = Int | Int32 | Int64
  datatype UintKind = Uint | Uint32 | Uint64

  /**
   * The dynamic value of a field (`interface{}` in the source), for the types the encoder
   * tells apart. `FloatValue` carries the text `strconv.FormatFloat(v, 'f', -1, 64)` gives,
   * since floating point is not modelled. `StringerValue` is a value of any other type with a
   * `String()` method, carrying what that method returns. `OtherValue` is a value of any
   * remaining type, carrying the name reflection gives its type.
   */
  datatype FieldValue =
    | IntValue(kind: IntKind, i: int)
    | UintValue(ukind: UintKind, u: nat)
    | StringValue(s: string)
    | TimeValue(t: Time)
    | DurationValue(d: Duration)
    | FloatValue(text: string)
    | BoolValue(b: bool)
    | StringerValue(str: string)
    | NilValue
    | OtherValue(typeName: string)

  /** A data point: measurement name, time, tag map and field map. */
  datatype Datum = Datum(name: string, time: Time, tags: map<string, string>, fields: map<string, FieldValue>)

  /** `metric.Datum{}`: everything zero, both maps empty. */
  const EmptyDatum: Datum := Datum("", ZeroTime, map[], map[])

  /** The larger of two integers. */
  function MaxInt(a: int, b: int): (r: int)
    ensures r >= a && r >= b
    ensures r == a || r == b
  {
    if a > b then a else b
  }

  /** The text `encodeField` writes for one value, or the error it returns. */
  function FieldText(v: FieldValue): (r: Result<string, string>)
    ensures r.Failure? <==> v.NilValue? || v.OtherValue?
    ensures r.Success? && (v.IntValue? || v.UintValue? || v.TimeValue? || v.DurationValue?) ==>
      |r.value| > 1 && r.value[|r.value| - 1] == 'i'
    ensures r.Success? && (v.StringValue? || v.StringerValue?) ==>
      |r.value| >= 2 && r.value[0] == '"' && r.value[|r.value| - 1] == '"'
  {
    match v
    case IntValue(_, i) => Success(FormatInt(i) + "i")
    case UintValue(_, u) => Success(FormatUint(u) + "i")
    case StringValue(s) => Success("\"" + s + "\"")
    case TimeValue(t) => Success(FormatInt(t) + "i")
    case DurationValue(d) => Success(FormatInt(d) + "i")
    case FloatValue(text) => Success(text)
    case BoolValue(b) => Success(if b then "t" else "f")
    case StringerValue(str) => Success("\"" + str + "\"")
    case NilValue => Failure("field value is nil")
    case OtherValue(name) => Failure("unknown field type: " + name)
  }

  /** `strings.Builder`, as far as the encoder uses it: a growing string. */
  class StringBuilder {
    var buf: string

    constructor ()
      ensures buf == ""
    {
      buf := "";
    }

    method WriteString(s: string)
      modifies this
      ensures buf == old(buf) + s
    {
      buf := buf + s;
    }

    method WriteByte(c: char)
      modifies this
      ensures buf == old(buf) + [c]
    {
      buf := buf + [c];
    }
  }

  /** `encodeField`: appends the value's text, or appends nothing and returns the error. */
  method EncodeField(value: FieldValue, b: StringBuilder) returns (err: Option<string>)
    modifies b
    ensures FieldText(value).Success? ==> err == None && b.buf == old(b.buf) + FieldText(value).value
    ensures FieldText(value).Failure? ==> err == Some(FieldText(value).error) && b.buf == old(b.buf)
  {
    err := None;
    match value
    case IntValue(_, i) =>
      b.WriteString(FormatInt(i));
      b.WriteByte('i');
    case UintValue(_, u) =>
      b.WriteString(FormatUint(u));
      b.WriteByte('i');
    case StringValue(s) =>
      b.WriteByte('"');
      b.WriteString(s);
      b.WriteByte('"');
    case TimeValue(t) =>
      b.WriteString(FormatInt(t));
      b.WriteByte('i');
    case DurationValue(d) =>
      b.WriteString(FormatInt(d));
      b.WriteByte('i');
    case FloatValue(text) =>
      b.WriteString(text);
    case BoolValue(v) =>
      if v {
        b.WriteByte('t');
      } else {
        b.WriteByte('f');
      }
    case StringerValue(str) =>
      b.WriteByte('"');
      b.WriteString(str);
      b.WriteByte('"');
    case NilValue =>
      err := Some("field value is nil");
    case OtherValue(name) =>
      err := Some("unknown field type: " + name);
  }

  /** The tag section for the given key order: `,key=value` per key, nothing escaped. */
  function TagsText(keys: seq<string>, tags: map<string, string>): string
    requires forall k :: k in keys ==> k in tags
  {
    if |keys| == 0 then ""
    else
      var k := keys[|keys| - 1];
      TagsText(keys[..|keys| - 1], tags) + "," + k + "=" + tags[k]
  }

  /**
   * The field section for the given key order: `key=text` per key, separated by commas,
   * or the error of the first field in that order that cannot be encoded.
   */
  function FieldsText(keys: seq<string>, fields: map<string, FieldValue>): Result<string, string>
    requires forall k :: k in keys ==> k in fields
  {
    if |keys| == 0 then Success("")
    else
      var k := keys[|keys| - 1];
      match FieldsText(keys[..|keys| - 1], fields)
      case Failure(e) => Failure(e)
      case Success(prefix) =>
        match FieldEntry(k, fields[k], |keys| == 1)
        case Failure(e) => Failure(e)
        case Success(t) => Success(prefix + t)
  }

  /** One field: a comma unless it is the first, then `key=text`; or the value's error. */
  function FieldEntry(k: string, v: FieldValue, first: bool): Result<string, string> {
    match FieldText(v)
    case Failure(e) => Failure(e)
    case Success(t) => Success((if first then "" else ",") + k + "=" + t)
  }

  /**
   * The line for a data point: name, tags in ascending key order, a space, fields in
   * ascending key order, a space and the signed decimal Unix-nanosecond time.
   */
  ghost function LineProtocol(d: Datum): Result<string, string> {
    match FieldSection(d.fields)
    case Failure(e) => Failure(e)
    case Success(f) => Success(d.name + TagSection(d.tags) + " " + f + " " + FormatInt(d.time))
  }

  /** All tags, keys ascending. */
  ghost function TagSection(tags: map<string, string>): string {
    TagsText(SortedKeys(tags.Keys), tags)
  }

  /** All fields, keys ascending. */
  ghost function FieldSection(fields: map<string, FieldValue>): Result<string, string> {
    FieldsText(SortedKeys(fields.Keys), fields)
  }

  predicate Distinct(s: seq<string>) {
    forall i, j :: 0 <= i < j < |s| ==> s[i] != s[j]
  }

  /**
   * `keys = keys[:0]; for k := range m { keys = append(keys, k) }`: the keys of a map, in
   * whatever order the map yields them.
   */
  method RangeKeys<V>(m: map<string, V>) returns (r: seq<string>)
    ensures Distinct(r)
    ensures forall k :: k in r <==> k in m
  {
    r := [];
    var rest := m.Keys;
    while rest != {}
      invariant rest <= m.Keys
      invariant forall k :: k in r <==> k in m && k !in rest
      invariant Distinct(r)
      decreases rest
    {
      var k :| k in rest;
      r := r + [k];
      rest := rest - {k};
    }
  }

  /** `sort.Strings` on a list without duplicates. */
  method SortStrings(keys: seq<string>) returns (sorted: seq<string>)
    requires Distinct(keys)
    ensures StrictlySorted(sorted)
    ensures forall k :: k in sorted <==> k in keys
  {
    sorted := [];
    for i := 0 to |keys|
      invariant StrictlySorted(sorted)
      invariant forall k :: k in sorted <==> k in keys[..i]
    {
      sorted := Insert(sorted, keys[i]);
    }
  }

  /** One more key on a successful field section: separator, key, `=` and the value's text. */
  lemma FieldsTextStep(keys: seq<string>, i: nat, fields: map<string, FieldValue>)
    requires i < |keys|
    requires forall k :: k in keys ==> k in fields
    requires FieldsText(keys[..i], fields).Success?
    requires FieldEntry(keys[i], fields[keys[i]], i == 0).Success?
    ensures FieldsText(keys[..i + 1], fields)
         == Success(FieldsText(keys[..i], fields).value + FieldEntry(keys[i], fields[keys[i]], i == 0).value)
  {
    assert keys[..i + 1][..i] == keys[..i];
  }

  /** One more key that cannot be encoded turns a successful field section into its error. */
  lemma FieldsTextFailStep(keys: seq<string>, i: nat, fields: map<string, FieldValue>)
    requires i < |keys|
    requires forall k :: k in keys ==> k in fields
    requires FieldsText(keys[..i], fields).Success?
    requires FieldEntry(keys[i], fields[keys[i]], i == 0).Failure?
    ensures FieldsText(keys[..i + 1], fields) == FieldEntry(keys[i], fields[keys[i]], i == 0)
  {
    assert keys[..i + 1][..i] == keys[..i];
  }

  /** Once a field fails to encode, later fields do not change the outcome. */
  lemma {:induction false} FieldsFailureStays(keys: seq<string>, n: nat, fields: map<string, FieldValue>)
    requires n <= |keys|
    requires forall k :: k in keys ==> k in fields
    requires FieldsText(keys[..n], fields).Failure?
    ensures FieldsText(keys, fields) == FieldsText(keys[..n], fields)
    decreases |keys| - n
  {
    if n < |keys| {
      assert keys[..|keys| - 1][..n] == keys[..n];
      FieldsFailureStays(keys[..|keys| - 1], n, fields);
    } else {
      assert keys[..n] == keys;
    }
  }

  /** One key of the field list: the section grows by its entry, or ends with its error. */
  lemma FieldsTextGroupStep(keys: seq<string>, i: nat, fields: map<string, FieldValue>, prefix: string)
    requires i < |keys|
    requires forall k :: k in keys ==> k in fields
    requires FieldsText(keys[..i], fields) == Success(prefix)
    ensures var e := FieldEntry(keys[i], fields[keys[i]], i == 0);
      && (e.Success? ==> FieldsText(keys[..i + 1], fields) == Success(prefix + e.value))
      && (e.Failure? ==> FieldsText(keys, fields) == Failure(e.error))
  {
    if FieldEntry(keys[i], fields[keys[i]], i == 0).Success? {
      FieldsTextStep(keys, i, fields);
    } else {
      FieldsTextFailStep(keys, i, fields);
      FieldsFailureStays(keys, i + 1, fields);
    }
  }

  /** The key list `ToInfluxDBLineProtocol` builds and sorts for one of the two maps. */
  method SortedMapKeys<V>(m: map<string, V>) returns (keys: seq<string>)
    ensures keys == SortedKeys(m.Keys)
  {
    keys := RangeKeys(m);
    keys := SortStrings(keys);
    SortedUnique(keys, SortedKeys(m.Keys));
  }

  /** The tag loop of `ToInfluxDBLineProtocol`: `,key=value` per tag, keys ascending. */
  method WriteTags(w: StringBuilder, tags: map<string, string>)
    modifies w
    ensures w.buf == old(w.buf) + TagSection(tags)
  {
    var keys := SortedMapKeys(tags);
    WriteTagList(w, keys, tags);
  }

  /** The body of the field loop: separator, key, `=`, then `encodeField`. */
  method WriteFieldEntry(w: StringBuilder, k: string, v: FieldValue, first: bool) returns (err: Option<string>)
    modifies w
    ensures FieldEntry(k, v, first).Success? ==> err == None && w.buf == old(w.buf) + FieldEntry(k, v, first).value
    ensures FieldEntry(k, v, first).Failure? ==> err == Some(FieldEntry(k, v, first).error)
  {
    ghost var head := w.buf;
    ghost var sep := if first then "" else ",";
    if !first {
      w.WriteByte(',');
    }
    assert w.buf == head + sep;
    w.WriteString(k);
    w.WriteByte('=');
    FieldEntryText(head, sep, k, v, first);
    err := EncodeField(v, w);
  }

  /** The text `WriteFieldEntry` has written before the value, followed by the value's text. */
  lemma FieldEntryText(head: string, sep: string, k: string, v: FieldValue, first: bool)
    requires sep == if first then "" else ","
    ensures FieldText(v).Success? ==>
      FieldEntry(k, v, first) == Success(sep + k + "=" + FieldText(v).value)
      && head + sep + k + ['='] + FieldText(v).value == head + FieldEntry(k, v, first).value
    ensures FieldText(v).Failure? ==> FieldEntry(k, v, first) == Failure(FieldText(v).error)
  {
    match FieldText(v)
    case Failure(_) =>
    case Success(t) =>
      assert (if first then "" else ",") + k + "=" + t == sep + k + "=" + t;
      assert head + sep + k + ['='] + t == head + (sep + k + "=" + t);
  }

  /** `,key=value` for each key of the list, in list order. */
  method WriteTagList(w: StringBuilder, keys: seq<string>, tags: map<string, string>)
    requires forall k :: k in keys ==> k in tags
    modifies w
    ensures w.buf == old(w.buf) + TagsText(keys, tags)
  {
    ghost var start := w.buf;
    for i := 0 to |keys|
      invariant w.buf == start + TagsText(keys[..i], tags)
    {
      var k := keys[i];
      var v := tags[k];
      assert keys[..i + 1][..i] == keys[..i];
      w.WriteByte(',');
      w.WriteString(k);
      w.WriteByte('=');
      w.WriteString(v);
    }
    assert keys[..|keys|] == keys;
  }

  /**
   * The field loop of `ToInfluxDBLineProtocol`: `key=text` per field, keys ascending, commas
   * between; it stops at the first field that cannot be encoded and returns its error.
   */
  method WriteFields(w: StringBuilder, fields: map<string, FieldValue>) returns (err: Option<string>)
    modifies w
    ensures FieldSection(fields).Success? ==> err == None && w.buf == old(w.buf) + FieldSection(fields).value
    ensures FieldSection(fields).Failure? ==> err == Some(FieldSection(fields).error)
  {
    var keys := SortedMapKeys(fields);
    err := WriteFieldList(w, keys, fields);
  }

  /** `key=text` for each key of the list, in list order, commas between, up to the first failure. */
  method WriteFieldList(w: StringBuilder, keys: seq<string>, fields: map<string, FieldValue>) returns (err: Option<string>)
    requires forall k :: k in keys ==> k in fields
    modifies w
    ensures FieldsText(keys, fields).Success? ==> err == None && w.buf == old(w.buf) + FieldsText(keys, fields).value
    ensures FieldsText(keys, fields).Failure? ==> err == Some(FieldsText(keys, fields).error)
  {
    ghost var start := w.buf;
    ghost var text := "";
    for i := 0 to |keys|
      invariant FieldsText(keys[..i], fields) == Success(text)
      invariant w.buf == start + text
    {
      ghost var entry;
      err, entry := WriteFieldAt(w, keys, i, fields, text);
      if err.Some? {
        return;
      }
      text := text + entry;
    }
    assert keys[..|keys|] == keys;
    err := None;
  }

  /** One turn of the field loop: the entry of key `i` is written, or the section's error returned. */
  method WriteFieldAt(w: StringBuilder, keys: seq<string>, i: nat, fields: map<string, FieldValue>, ghost text: string)
    returns (err: Option<string>, ghost entry: string)
    requires i < |keys| && forall k :: k in keys ==> k in fields
    requires FieldsText(keys[..i], fields) == Success(text)
    modifies w
    ensures err.None? ==> FieldsText(keys[..i + 1], fields) == Success(text + entry) && w.buf == old(w.buf) + entry
    ensures err.Some? ==> FieldsText(keys, fields) == Failure(err.value)
  {
    FieldsTextGroupStep(keys, i, fields, text);
    var k := keys[i];
    err := WriteFieldEntry(w, k, fields[k], i == 0);
    entry := if err.None? then FieldEntry(k, fields[k], i == 0).value else "";
  }

  /**
   * `Datum.ToInfluxDBLineProtocol`: the line, or "" and the error of the first field (in key
   * order) that cannot be encoded. The builder comes from a pool in the source and is always
   * empty when taken, so here it is a fresh one. The order in which the maps yield their keys
   * does not change the result.
   */
  method ToInfluxDBLineProtocol(m: Datum) returns (s: string, err: Option<string>)
    ensures LineProtocol(m).Success? ==> err == None && s == LineProtocol(m).value
    ensures LineProtocol(m).Failure? ==> err == Some(LineProtocol(m).error) && s == ""
  {
    var w := new StringBuilder();
    w.WriteString(m.name);
    WriteTags(w, m.tags);
    ghost var head := w.buf;
    assert head == m.name + TagSection(m.tags);
    w.WriteByte(' ');
    err := WriteFields(w, m.fields);
    if err.Some? {
      return "", err;
    }
    ghost var f := FieldSection(m.fields).value;
    assert w.buf == head + " " + f;
    w.WriteByte(' ');
    w.WriteString(FormatInt(m.time));
    assert w.buf == head + " " + f + " " + FormatInt(m.time);
    s := w.buf;
  }
}
