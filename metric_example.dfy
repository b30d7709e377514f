/**
 * The data point of the package's own line-protocol test and the line it expects, worked
 * out section by section.
 */
module MetricExample {
  import opened Wrappers
  import opened Decimal
  import opened Keys
  import opened Metric

  /** The line the package's test expects for its example data point. */
  lemma ExampleLine()
    ensures LineProtocol(Datum("test", 1546398245000000000, map["tag1" := "a", "tag2" := "b"],
                               map["field1" := IntValue(Int, 1), "field2" := BoolValue(true)]))
         == Success("test,tag1=a,tag2=b field1=1i,field2=t 1546398245000000000")
  {
    var d := Datum("test", 1546398245000000000, map["tag1" := "a", "tag2" := "b"],
                   map["field1" := IntValue(Int, 1), "field2" := BoolValue(true)]);
    ExampleTags();
    ExampleFields();
    ExampleTime();
    assert FormatInt(d.time) == FormatNat(1546398245000000000);
    assert LineProtocol(d) == Success("test" + ",tag1=a,tag2=b" + " " + "field1=1i,field2=t" + " " + "1546398245000000000");
    ExampleConcat();
  }

  /** The five sections of the line, joined. */
  lemma ExampleConcat()
    ensures "test" + ",tag1=a,tag2=b" + " " + "field1=1i,field2=t" + " " + "1546398245000000000"
         == "test,tag1=a,tag2=b field1=1i,field2=t 1546398245000000000"
  {
    ExampleHead();
    assert "test,tag1=a,tag2=b field1=1i,field2=t" + " " == "test,tag1=a,tag2=b field1=1i,field2=t ";
  }

  /** The name, the tags, a space and the fields, joined. */
  lemma ExampleHead()
    ensures "test" + ",tag1=a,tag2=b" + " " + "field1=1i,field2=t" == "test,tag1=a,tag2=b field1=1i,field2=t"
  {
    assert "test" + ",tag1=a,tag2=b" == "test,tag1=a,tag2=b";
    assert "test,tag1=a,tag2=b" + " " == "test,tag1=a,tag2=b ";
  }

  lemma ExampleTags()
    ensures TagSection(map["tag1" := "a", "tag2" := "b"]) == ",tag1=a,tag2=b"
  {
    var tags := map["tag1" := "a", "tag2" := "b"];
    assert tags.Keys == {"tag1", "tag2"};
    assert Less("tag1", "tag2");
    SortedKeysTwo("tag1", "tag2");
    ExampleTagsText();
  }

  lemma ExampleTagsText()
    ensures TagsText(["tag1", "tag2"], map["tag1" := "a", "tag2" := "b"]) == ",tag1=a,tag2=b"
  {
    var tags := map["tag1" := "a", "tag2" := "b"];
    var keys := ["tag1", "tag2"];
    assert keys[..1] == ["tag1"] && keys[..1][..0] == [];
    assert TagsText(keys[..1], tags) == ",tag1=a";
  }

  lemma ExampleFieldEntries()
    ensures FieldEntry("field1", IntValue(Int, 1), true) == Success("field1=1i")
    ensures FieldEntry("field2", BoolValue(true), false) == Success(",field2=t")
  {
    assert FormatInt(1) + "i" == "1i";
    assert FieldText(IntValue(Int, 1)) == Success("1i");
    assert "" + "field1" + "=" + "1i" == "field1=1i";
    assert "," + "field2" + "=" + "t" == ",field2=t";
  }

  lemma ExampleFields()
    ensures FieldSection(map["field1" := IntValue(Int, 1), "field2" := BoolValue(true)]) == Success("field1=1i,field2=t")
  {
    var fields := map["field1" := IntValue(Int, 1), "field2" := BoolValue(true)];
    assert fields.Keys == {"field1", "field2"};
    assert Less("field1", "field2");
    SortedKeysTwo("field1", "field2");
    ExampleFieldsText();
  }

  lemma ExampleFieldsText()
    ensures FieldsText(["field1", "field2"], map["field1" := IntValue(Int, 1), "field2" := BoolValue(true)])
         == Success("field1=1i,field2=t")
  {
    var fields := map["field1" := IntValue(Int, 1), "field2" := BoolValue(true)];
    var keys := ["field1", "field2"];
    ExampleFieldEntries();
    assert keys[..0] == [];
    FieldsTextStep(keys, 0, fields);
    FieldsTextStep(keys, 1, fields);
    assert keys[..2] == keys;
    assert "" + "field1=1i" + ",field2=t" == "field1=1i,field2=t";
  }

  /** One digit more: the text of `n` is the text of `n / 10` followed by the last digit. */
  lemma FormatNatStep(n: nat, s: string)
    requires n >= 10 && FormatNat(n / 10) == s
    ensures FormatNat(n) == s + [DigitChar(n % 10)]
  {
  }

  /** The test's timestamp, 2019-01-02T03:04:05Z in Unix nanoseconds, digit by digit. */
  lemma ExampleTime()
    ensures FormatNat(1546398245000000000) == "1546398245000000000"
  {
    ExampleSeconds();
    FormatNatStep(15463982450, "1546398245");
    assert "1546398245" + [DigitChar(0)] == "15463982450";
    FormatNatStep(154639824500, "15463982450");
    assert "15463982450" + [DigitChar(0)] == "154639824500";
    FormatNatStep(1546398245000, "154639824500");
    assert "154639824500" + [DigitChar(0)] == "1546398245000";
    FormatNatStep(15463982450000, "1546398245000");
    assert "1546398245000" + [DigitChar(0)] == "15463982450000";
    FormatNatStep(154639824500000, "15463982450000");
    assert "15463982450000" + [DigitChar(0)] == "154639824500000";
    FormatNatStep(1546398245000000, "154639824500000");
    assert "154639824500000" + [DigitChar(0)] == "1546398245000000";
    FormatNatStep(15463982450000000, "1546398245000000");
    assert "1546398245000000" + [DigitChar(0)] == "15463982450000000";
    FormatNatStep(154639824500000000, "15463982450000000");
    assert "15463982450000000" + [DigitChar(0)] == "154639824500000000";
    FormatNatStep(1546398245000000000, "154639824500000000");
    assert "154639824500000000" + [DigitChar(0)] == "1546398245000000000";
  }

  /** The same instant in Unix seconds. */
  lemma ExampleSeconds()
    ensures FormatNat(1546398245) == "1546398245"
  {
    assert FormatNat(1) == "1";
    FormatNatStep(15, "1");
    assert "1" + [DigitChar(5)] == "15";
    FormatNatStep(154, "15");
    assert "15" + [DigitChar(4)] == "154";
    FormatNatStep(1546, "154");
    assert "154" + [DigitChar(6)] == "1546";
    FormatNatStep(15463, "1546");
    assert "1546" + [DigitChar(3)] == "15463";
    FormatNatStep(154639, "15463");
    assert "15463" + [DigitChar(9)] == "154639";
    FormatNatStep(1546398, "154639");
    assert "154639" + [DigitChar(8)] == "1546398";
    FormatNatStep(15463982, "1546398");
    assert "1546398" + [DigitChar(2)] == "15463982";
    FormatNatStep(154639824, "15463982");
    assert "15463982" + [DigitChar(4)] == "154639824";
    FormatNatStep(1546398245, "154639824");
    assert "154639824" + [DigitChar(5)] == "1546398245";
  }
}
