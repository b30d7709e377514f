/**
 * Table cases of pkg/metric/encoder_test.go worked out against the encoder's escape
 * tables and value text.
 */
module EncoderExample {
  import opened Wrappers
  import opened Metric
  import opened Encoder

  /** Measurement names: spaces and commas are escaped, `=` is not. */
  lemma MeasurementCases()
    ensures Escape("test", MeasurementEscapes) == "test"
    ensures Escape("tes t", MeasurementEscapes) == "tes\\ t"
    ensures Escape("tes,t", MeasurementEscapes) == "tes\\,t"
    ensures Escape("a=b", MeasurementEscapes) == "a=b"
  {
    MeasurementPlain();
    MeasurementSpace();
    MeasurementComma();
  }

  lemma MeasurementPlain()
    ensures Escape("test", MeasurementEscapes) == "test" && Escape("a=b", MeasurementEscapes) == "a=b"
  {
    assert Escape("t", MeasurementEscapes) == "t";
    assert Escape("st", MeasurementEscapes) == "st";
    assert Escape("est", MeasurementEscapes) == "est";
    assert Escape("b", MeasurementEscapes) == "b";
    assert Escape("=b", MeasurementEscapes) == "=b";
  }

  lemma MeasurementSpace()
    ensures Escape("tes t", MeasurementEscapes) == "tes\\ t"
  {
    assert Escape("t", MeasurementEscapes) == "t";
    assert Escape(" t", MeasurementEscapes) == "\\ t";
    assert Escape("s t", MeasurementEscapes) == "s\\ t";
    assert Escape("es t", MeasurementEscapes) == "es\\ t";
  }

  lemma MeasurementComma()
    ensures Escape("tes,t", MeasurementEscapes) == "tes\\,t"
  {
    assert Escape("t", MeasurementEscapes) == "t";
    assert Escape(",t", MeasurementEscapes) == "\\,t";
    assert Escape("s,t", MeasurementEscapes) == "s\\,t";
    assert Escape("es,t", MeasurementEscapes) == "es\\,t";
  }

  /** Tag keys and values: commas, `=` and spaces are escaped. */
  lemma TagCases()
    ensures "," + Escape("f", LabelEscapes) + "=" + Escape("a", LabelEscapes) == ",f=a"
    ensures "," + Escape("f,", LabelEscapes) + "=" + Escape("a,", LabelEscapes) == ",f\\,=a\\,"
    ensures "," + Escape("f=", LabelEscapes) + "=" + Escape("a=", LabelEscapes) == ",f\\==a\\="
    ensures "," + Escape("f ", LabelEscapes) + "=" + Escape("a ", LabelEscapes) == ",f\\ =a\\ "
  {
    TagEscaped('f', 'a', ',');
    TagEscaped('f', 'a', '=');
    TagEscaped('f', 'a', ' ');
  }

  /** A tag whose key and value each end in the character `e` of the table. */
  lemma TagEscaped(k: char, v: char, e: char)
    requires k !in LabelEscapes && v !in LabelEscapes && e in LabelEscapes
    ensures Escape([k], LabelEscapes) == [k] && Escape([v], LabelEscapes) == [v]
    ensures "," + Escape([k, e], LabelEscapes) + "=" + Escape([v, e], LabelEscapes) == [',', k, '\\', e, '=', v, '\\', e]
  {
    assert Escape([e], LabelEscapes) == ['\\', e];
    assert [k, e][1..] == [e] && [v, e][1..] == [e];
    assert Escape([k, e], LabelEscapes) == [k, '\\', e];
    assert Escape([v, e], LabelEscapes) == [v, '\\', e];
  }

  /** A first field with an escaped name; later fields start with a comma. */
  lemma FieldNameCase()
    ensures FieldHead(0, "f=") + ValueText(IntValue(Int, 0)).value == " f\\==0i"
    ensures FieldHead(1, "f") == ",f="
  {
    assert Escape("f=", LabelEscapes) == "f\\=";
    assert ValueText(IntValue(Int, 0)).value == "0i";
  }

  /** A string value whose own quotes are escaped inside the quotes. */
  lemma FieldStringCase()
    ensures FieldHead(0, "f") + ValueText(StringValue("\"test\"")).value == " f=\"\\\"test\\\"\""
  {
    QuotedTest();
    var q := Quoted("\"test\"");
    assert q == "\"\\\"test\\\"\"";
    assert Escape("f", LabelEscapes) == "f";
    assert FieldHead(0, "f") == " f=";
    assert ValueText(StringValue("\"test\"")).value == q;
  }

  /** The quotes of a string value are escaped, its letters kept. */
  lemma QuotedTest()
    ensures Escape("\"test\"", StringEscapes) == "\\\"test\\\""
  {
    assert Escape("\"", StringEscapes) == "\\\"";
    assert Escape("t\"", StringEscapes) == "t\\\"";
    assert Escape("st\"", StringEscapes) == "st\\\"";
    assert Escape("est\"", StringEscapes) == "est\\\"";
    assert Escape("test\"", StringEscapes) == "test\\\"";
  }
}
