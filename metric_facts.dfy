/**
 * What the line `Datum.ToInfluxDBLineProtocol` writes says about the data point: when it
 * fails and with which error, how its tag section reads back, where the missing escaping
 * makes two data points indistinguishable, and the line the package's own test expects.
 */
module MetricFacts {
  import opened Wrappers
  import opened Decimal
  import opened Keys
  import opened Metric

  /** The values `encodeField` rejects: nil and values of a type it does not know. */
  predicate Unencodable(v: FieldValue) {
    v.NilValue? || v.OtherValue?
  }

  lemma FieldTextFails(v: FieldValue)
    ensures FieldText(v).Failure? <==> Unencodable(v)
    ensures v.NilValue? ==> FieldText(v) == Failure("field value is nil")
    ensures v.OtherValue? ==> FieldText(v) == Failure("unknown field type: " + v.typeName)
  {
  }

  /** A field section with one more key: the shorter one's error, or else the last value's. */
  lemma FieldsTextLast(keys: seq<string>, fields: map<string, FieldValue>)
    requires |keys| > 0
    requires forall k :: k in keys ==> k in fields
    ensures var init, v := FieldsText(keys[..|keys| - 1], fields), fields[keys[|keys| - 1]];
      && (FieldsText(keys, fields).Failure? <==> init.Failure? || Unencodable(v))
      && (init.Failure? ==> FieldsText(keys, fields).error == init.error)
      && (init.Success? && Unencodable(v) ==> FieldsText(keys, fields).error == FieldText(v).error)
  {
    FieldTextFails(fields[keys[|keys| - 1]]);
  }

  /** Some listed value is unencodable: one before the last key, or the last key's own. */
  lemma UnencodableSplit(keys: seq<string>, fields: map<string, FieldValue>)
    requires |keys| > 0
    requires forall k :: k in keys ==> k in fields
    ensures var n := |keys| - 1;
      (exists i :: 0 <= i < |keys| && Unencodable(fields[keys[i]]))
      <==> (exists i :: 0 <= i < n && Unencodable(fields[keys[..n][i]])) || Unencodable(fields[keys[n]])
  {
    var n := |keys| - 1;
    if exists i :: 0 <= i < |keys| && Unencodable(fields[keys[i]]) {
      var i :| 0 <= i < |keys| && Unencodable(fields[keys[i]]);
      if i < n {
        assert keys[..n][i] == keys[i];
      }
    }
    if exists i :: 0 <= i < n && Unencodable(fields[keys[..n][i]]) {
      var i :| 0 <= i < n && Unencodable(fields[keys[..n][i]]);
      assert keys[i] == keys[..n][i];
    }
  }

  /** A field section fails exactly when one of its values cannot be encoded. */
  lemma {:induction false} FieldsTextFails(keys: seq<string>, fields: map<string, FieldValue>)
    requires forall k :: k in keys ==> k in fields
    ensures FieldsText(keys, fields).Failure? <==> exists i :: 0 <= i < |keys| && Unencodable(fields[keys[i]])
    decreases |keys|
  {
    if |keys| > 0 {
      var n := |keys| - 1;
      var init := keys[..n];
      FieldsTextFails(init, fields);
      FieldsTextLast(keys, fields);
      UnencodableSplit(keys, fields);
    }
  }

  /** A failing field section reports the first value in key order that cannot be encoded. */
  lemma {:induction false} FieldsTextFirstFailure(keys: seq<string>, fields: map<string, FieldValue>)
    requires forall k :: k in keys ==> k in fields
    ensures FieldsText(keys, fields).Failure? ==>
      exists i :: 0 <= i < |keys| && Unencodable(fields[keys[i]])
        && (forall j :: 0 <= j < i ==> !Unencodable(fields[keys[j]]))
        && FieldText(fields[keys[i]]) == Failure(FieldsText(keys, fields).error)
    decreases |keys|
  {
    if |keys| > 0 {
      var n := |keys| - 1;
      var init := keys[..n];
      FieldsTextLast(keys, fields);
      if FieldsText(init, fields).Failure? {
        FieldsTextFirstFailure(init, fields);
        var i :| 0 <= i < |init| && Unencodable(fields[init[i]])
          && (forall j :: 0 <= j < i ==> !Unencodable(fields[init[j]]))
          && FieldText(fields[init[i]]) == Failure(FieldsText(init, fields).error);
        assert keys[i] == init[i];
        assert forall j :: 0 <= j < i ==> keys[j] == init[j];
      } else if Unencodable(fields[keys[n]]) {
        FieldsTextFails(init, fields);
        assert forall j :: 0 <= j < n ==> keys[j] == init[j];
      }
    }
  }

  /**
   * A field section fails exactly when one of its values cannot be encoded, and then with
   * the error of the first such value in key order.
   */
  lemma FieldsTextFailure(keys: seq<string>, fields: map<string, FieldValue>)
    requires forall k :: k in keys ==> k in fields
    ensures FieldsText(keys, fields).Failure? <==> exists i :: 0 <= i < |keys| && Unencodable(fields[keys[i]])
    ensures FieldsText(keys, fields).Failure? ==>
      exists i :: 0 <= i < |keys| && Unencodable(fields[keys[i]])
        && (forall j :: 0 <= j < i ==> !Unencodable(fields[keys[j]]))
        && FieldText(fields[keys[i]]) == Failure(FieldsText(keys, fields).error)
  {
    FieldsTextFails(keys, fields);
    FieldsTextFirstFailure(keys, fields);
  }

  /**
   * `ToInfluxDBLineProtocol` fails exactly when some field value is nil or of an unknown
   * type, and it reports the one whose key sorts first.
   */
  lemma LineProtocolFailure(d: Datum)
    ensures LineProtocol(d).Failure? <==> exists k :: k in d.fields && Unencodable(d.fields[k])
    ensures LineProtocol(d).Failure? ==>
      exists k :: k in d.fields && Unencodable(d.fields[k])
        && FieldText(d.fields[k]) == Failure(LineProtocol(d).error)
        && forall k' :: k' in d.fields && Unencodable(d.fields[k']) && k' != k ==> Less(k, k')
  {
    FieldSectionFailure(d.fields);
  }

  /** The field section, keys ascending, fails with the error of the least unencodable key. */
  lemma FieldSectionFailure(fields: map<string, FieldValue>)
    ensures FieldSection(fields).Failure? <==> exists k :: k in fields && Unencodable(fields[k])
    ensures FieldSection(fields).Failure? ==>
      exists k :: k in fields && Unencodable(fields[k])
        && FieldText(fields[k]) == Failure(FieldSection(fields).error)
        && forall k' :: k' in fields && Unencodable(fields[k']) && k' != k ==> Less(k, k')
  {
    FieldSectionFails(fields);
    if FieldSection(fields).Failure? {
      FieldSectionLeast(fields);
    }
  }

  lemma FieldSectionFails(fields: map<string, FieldValue>)
    ensures FieldSection(fields).Failure? <==> exists k :: k in fields && Unencodable(fields[k])
  {
    var keys := SortedKeys(fields.Keys);
    FieldsTextFails(keys, fields);
    BadKeyListed(keys, fields);
  }

  lemma FieldSectionLeast(fields: map<string, FieldValue>)
    requires FieldSection(fields).Failure?
    ensures exists k ::
      && k in fields && Unencodable(fields[k])
      && FieldText(fields[k]) == Failure(FieldSection(fields).error)
      && forall k' :: k' in fields && Unencodable(fields[k']) && k' != k ==> Less(k, k')
  {
    var keys := SortedKeys(fields.Keys);
    FieldsTextFirstFailure(keys, fields);
    var i :| 0 <= i < |keys| && Unencodable(fields[keys[i]])
      && (forall j :: 0 <= j < i ==> !Unencodable(fields[keys[j]]))
      && FieldText(fields[keys[i]]) == Failure(FieldsText(keys, fields).error);
    FirstBadKeyLeast(keys, fields, i);
    assert keys[i] in fields;
  }

  /** With every key listed, some value is unencodable exactly when one at a listed key is. */
  lemma BadKeyListed(keys: seq<string>, fields: map<string, FieldValue>)
    requires forall k :: k in keys <==> k in fields
    ensures (exists k :: k in fields && Unencodable(fields[k]))
        <==> exists i :: 0 <= i < |keys| && Unencodable(fields[keys[i]])
  {
    if exists k :: k in fields && Unencodable(fields[k]) {
      var k :| k in fields && Unencodable(fields[k]);
      var i :| 0 <= i < |keys| && keys[i] == k;
    }
  }

  /** In a sorted key list, the first key with an unencodable value sorts before all others. */
  lemma FirstBadKeyLeast(keys: seq<string>, fields: map<string, FieldValue>, i: nat)
    requires StrictlySorted(keys)
    requires forall k :: k in keys <==> k in fields
    requires i < |keys| && (forall j :: 0 <= j < i ==> !Unencodable(fields[keys[j]]))
    ensures forall k :: k in fields && Unencodable(fields[k]) && k != keys[i] ==> Less(keys[i], k)
  {
    forall k | k in fields && Unencodable(fields[k]) && k != keys[i]
      ensures Less(keys[i], k)
    {
      var j :| 0 <= j < |keys| && keys[j] == k;
      assert j > i;
    }
  }

  /** The index of the last `c` in `s`, if any. */
  function LastIndex(s: string, c: char): (r: Option<nat>)
    ensures r.Some? ==> r.value < |s| && s[r.value] == c && c !in s[r.value + 1..]
    ensures r.None? ==> c !in s
    decreases |s|
  {
    if |s| == 0 then None
    else if s[|s| - 1] == c then Some(|s| - 1)
    else
      var r := LastIndex(s[..|s| - 1], c);
      assert s == s[..|s| - 1] + [s[|s| - 1]];
      r
  }

  /** The index of the first `c` in `s`, if any. */
  function FirstIndex(s: string, c: char): (r: Option<nat>)
    ensures r.Some? ==> r.value < |s| && s[r.value] == c && c !in s[..r.value]
    ensures r.None? ==> c !in s
    decreases |s|
  {
    if |s| == 0 then None
    else if s[0] == c then Some(0)
    else
      match FirstIndex(s[1..], c)
      case None => None
      case Some(i) =>
        assert s[..i + 1] == [s[0]] + s[1..][..i];
        Some(i + 1)
  }

  /**
   * A reader for a tag section: `,key=value` entries, each split at its last comma and then
   * at the first `=`; a later entry for the same key wins.
   */
  function ReadTags(s: string): Option<map<string, string>>
    decreases |s|
  {
    if |s| == 0 then Some(map[])
    else
      match LastIndex(s, ',')
      case None => None
      case Some(i) =>
        var entry := s[i + 1..];
        match FirstIndex(entry, '=')
        case None => None
        case Some(j) =>
          match ReadTags(s[..i])
          case None => None
          case Some(m) => Some(m[entry[..j] := entry[j + 1..]])
  }

  /** Tags that a reader can split back: no comma in keys or values, no `=` in keys. */
  predicate PlainTags(tags: map<string, string>) {
    forall k :: k in tags ==> ',' !in k && '=' !in k && ',' !in tags[k]
  }

  /** A line ending in `,e`, with no comma in `e`, splits at that comma. */
  lemma LastIndexAfter(p: string, e: string, c: char)
    requires c !in e
    ensures var s := p + [c] + e; LastIndex(s, c) == Some(|p|) && s[..|p|] == p && s[|p| + 1..] == e
  {
    var s := p + [c] + e;
    assert s[|p|] == c;
    assert s[..|p|] == p;
    assert s[|p| + 1..] == e;
  }

  /** An entry `k=v`, with no `=` in `k`, splits at that `=`. */
  lemma FirstIndexAfter(k: string, v: string, c: char)
    requires c !in k
    ensures var e := k + [c] + v; FirstIndex(e, c) == Some(|k|) && e[..|k|] == k && e[|k| + 1..] == v
  {
    var e := k + [c] + v;
    assert e[|k|] == c;
    assert e[..|k|] == k;
    assert e[|k| + 1..] == v;
  }

  /** An entry whose key and value hold no comma holds none. */
  lemma EntryPlain(k: string, v: string)
    requires ',' !in k && ',' !in v
    ensures ',' !in k + ['='] + v
  {
  }

  /** One more `,key=value` entry adds that tag to what the rest reads as. */
  lemma ReadTagsStep(p: string, k: string, v: string)
    requires ',' !in k && '=' !in k && ',' !in v
    ensures ReadTags(p + "," + k + "=" + v)
         == match ReadTags(p) case None => None case Some(m) => Some(m[k := v])
  {
    var e := k + ['='] + v;
    var s := p + [','] + e;
    EntryJoin(p, k, v);
    EntryPlain(k, v);
    LastIndexAfter(p, e, ',');
    FirstIndexAfter(k, v, '=');
    ReadTagsAt(s, |p|, |k|, p, k, v);
  }

  lemma EntryJoin(p: string, k: string, v: string)
    ensures p + "," + k + "=" + v == p + [','] + (k + ['='] + v)
  {
  }

  /** `ReadTags` on a string split at its last comma and the first `=` after it. */
  lemma ReadTagsAt(s: string, i: nat, j: nat, prefix: string, key: string, value: string)
    requires LastIndex(s, ',') == Some(i)
    requires FirstIndex(s[i + 1..], '=') == Some(j)
    requires prefix == s[..i] && key == s[i + 1..][..j] && value == s[i + 1..][j + 1..]
    ensures ReadTags(s) == match ReadTags(prefix) case None => None case Some(m) => Some(m[key := value])
  {
    var rest := ReadTags(prefix);
    assert ReadTags(s) == if rest.None? then None else Some(rest.value[key := value]);
  }

  /** The tag section for a longer key list reads as the shorter one's plus the last tag. */
  lemma ReadTagsTextStep(keys: seq<string>, tags: map<string, string>)
    requires |keys| > 0
    requires forall k :: k in keys ==> k in tags
    requires PlainTags(tags)
    ensures ReadTags(TagsText(keys, tags))
         == match ReadTags(TagsText(keys[..|keys| - 1], tags))
            case None => None
            case Some(m) => Some(m[keys[|keys| - 1] := tags[keys[|keys| - 1]]])
  {
    var k := keys[|keys| - 1];
    ReadTagsStep(TagsText(keys[..|keys| - 1], tags), k, tags[k]);
  }

  /** The tags of `keys`, each with its value in `tags`. */
  ghost function TagsOf(keys: seq<string>, tags: map<string, string>): map<string, string>
    requires forall k :: k in keys ==> k in tags
  {
    map x | x in keys :: tags[x]
  }

  lemma TagsOfStep(keys: seq<string>, tags: map<string, string>)
    requires |keys| > 0
    requires forall k :: k in keys ==> k in tags
    ensures TagsOf(keys, tags) == TagsOf(keys[..|keys| - 1], tags)[keys[|keys| - 1] := tags[keys[|keys| - 1]]]
  {
    assert keys == keys[..|keys| - 1] + [keys[|keys| - 1]];
  }

  /** Reading a tag section back yields exactly the tags it was written from. */
  lemma {:induction false} ReadTagsText(keys: seq<string>, tags: map<string, string>)
    requires forall k :: k in keys ==> k in tags
    requires PlainTags(tags)
    ensures ReadTags(TagsText(keys, tags)) == Some(TagsOf(keys, tags))
    decreases |keys|
  {
    if |keys| > 0 {
      ReadTagsText(keys[..|keys| - 1], tags);
      ReadTagsTextStep(keys, tags);
      TagsOfStep(keys, tags);
    } else {
      assert TagsOf(keys, tags) == map[];
    }
  }

  /** Without commas in keys and values and without `=` in keys, the tag section reads back. */
  lemma TagSectionRoundTrip(tags: map<string, string>)
    requires PlainTags(tags)
    ensures ReadTags(TagSection(tags)) == Some(tags)
  {
    var keys := SortedKeys(tags.Keys);
    ReadTagsText(keys, tags);
    assert TagsOf(keys, tags) == tags;
  }

  /**
   * Nothing is escaped, so a tag value holding `,b=2` writes the same line as a second tag:
   * two different data points, one line.
   */
  lemma TagsCollide(name: string, time: int, fields: map<string, FieldValue>)
    ensures Datum(name, time, map["a" := "1,b=2"], fields) != Datum(name, time, map["a" := "1", "b" := "2"], fields)
    ensures LineProtocol(Datum(name, time, map["a" := "1,b=2"], fields))
         == LineProtocol(Datum(name, time, map["a" := "1", "b" := "2"], fields))
  {
    assert "b" !in map["a" := "1,b=2"];
    OneTagSection();
    TwoTagSection();
    SameTagSectionSameLine(name, time, map["a" := "1,b=2"], map["a" := "1", "b" := "2"], fields);
  }

  /** Only the tag section of the tags reaches the line. */
  lemma SameTagSectionSameLine(name: string, time: int, a: map<string, string>, b: map<string, string>,
                               fields: map<string, FieldValue>)
    requires TagSection(a) == TagSection(b)
    ensures LineProtocol(Datum(name, time, a, fields)) == LineProtocol(Datum(name, time, b, fields))
  {
  }

  lemma OneTagSection()
    ensures TagSection(map["a" := "1,b=2"]) == ",a=1,b=2"
  {
    var one := map["a" := "1,b=2"];
    assert one.Keys == {"a"};
    SortedKeysOne("a");
    assert ["a"][..0] == [];
    assert TagsText(["a"], one) == "" + "," + "a" + "=" + "1,b=2";
  }

  lemma TwoTagSection()
    ensures TagSection(map["a" := "1", "b" := "2"]) == ",a=1,b=2"
  {
    var two := map["a" := "1", "b" := "2"];
    assert two.Keys == {"a", "b"};
    SortedKeysTwo("a", "b");
    assert ["a", "b"][..1] == ["a"] && ["a"][..0] == [];
    assert TagsText(["a"], two) == "" + "," + "a" + "=" + "1";
    assert TagsText(["a", "b"], two) == TagsText(["a"], two) + "," + "b" + "=" + "2";
  }

  /** Integer fields read back with the 64-bit integer reader, once the `i` suffix is dropped. */
  lemma IntFieldReadsBack(kind: IntKind, i: int)
    requires Int64Min <= i <= Int64Max
    ensures var t := FieldText(IntValue(kind, i)).value;
      |t| > 0 && t[|t| - 1] == 'i' && ParseInt64(t[..|t| - 1]) == Some(i)
  {
    var t := FieldText(IntValue(kind, i)).value;
    assert t[..|t| - 1] == FormatInt(i);
    ParseFormatInt(i);
  }

  /**
   * Every `uint64` value above the signed range is written anyway: its digits do not read back
   * as a 64-bit integer field.
   */
  lemma LargeUintUnreadable(u: nat)
    requires Int64Max < u <= Uint64Max
    ensures var t := FieldText(UintValue(Uint64, u)).value;
      ParseInt64(t[..|t| - 1]).None?
  {
    var t := FieldText(UintValue(Uint64, u)).value;
    var s := FormatUint(u);
    assert t[..|t| - 1] == s;
    assert IsDigit(s[0]);
  }
}
