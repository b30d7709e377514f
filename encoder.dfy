/**
 * The escaping line-protocol encoder of pkg/metric/encoder.go: a byte buffer with a field
 * counter, and the three character-escape tables it writes names, labels and strings with.
 */
module Encoder {
  import opened Wrappers
  import opened Decimal
  import opened Metric

  /** `labelReplacer`: tag keys, tag values and field names. */
  const LabelEscapes: set<char> := {',', '=', ' '}
  /** `measurementReplacer`: measurement names; `=` is left alone. */
  const MeasurementEscapes: set<char> := {',', ' '}
  /** `stringReplacer`: the inside of quoted string values; backslashes are left alone. */
  const StringEscapes: set<char> := {'"'}

  /**
   * A replacer built from single-character pairs `c -> \c`: each character of the table is
   * written after a backslash, every other character as it is.
   */
  function Escape(s: string, table: set<char>): (r: string)
    ensures |s| <= |r| <= 2 * |s|
    ensures |r| == |s| ==> r == s
    decreases |s|
  {
    if |s| == 0 then ""
    else (if s[0] in table then ['\\', s[0]] else [s[0]]) + Escape(s[1..], table)
  }

  /** The reverse of `Escape`: a backslash before a table character is dropped. */
  function Unescape(s: string, table: set<char>): string
    decreases |s|
  {
    if |s| == 0 then ""
    else if |s| >= 2 && s[0] == '\\' && s[1] in table then [s[1]] + Unescape(s[2..], table)
    else [s[0]] + Unescape(s[1..], table)
  }

  lemma {:induction false} EscapeAppend(a: string, b: string, table: set<char>)
    ensures Escape(a + b, table) == Escape(a, table) + Escape(b, table)
    decreases |a|
  {
    if |a| > 0 {
      assert (a + b)[1..] == a[1..] + b;
      EscapeAppend(a[1..], b, table);
    } else {
      assert a + b == b;
    }
  }

  /**
   * When the backslash is not itself a table character, unescaping undoes escaping, so the
   * escaped text determines the original.
   */
  lemma {:induction false} UnescapeEscape(s: string, table: set<char>)
    requires '\\' !in table
    ensures Unescape(Escape(s, table), table) == s
    decreases |s|
  {
    if |s| > 0 {
      var rest := Escape(s[1..], table);
      UnescapeEscape(s[1..], table);
      if s[0] in table {
        assert Escape(s, table) == ['\\', s[0]] + rest;
        assert Escape(s, table)[2..] == rest;
      } else {
        assert Escape(s, table) == [s[0]] + rest;
        assert Escape(s, table)[1..] == rest;
        if s[0] == '\\' && |rest| > 0 {
          FirstEscaped(s[1..], table);
        }
      }
      assert s == [s[0]] + s[1..];
    }
  }

  /** Escaped text never starts with a table character. */
  lemma FirstEscaped(s: string, table: set<char>)
    requires '\\' !in table && |s| > 0
    ensures Escape(s, table)[0] !in table
  {
  }

  lemma EscapeInjective(a: string, b: string, table: set<char>)
    requires '\\' !in table
    requires Escape(a, table) == Escape(b, table)
    ensures a == b
  {
    UnescapeEscape(a, table);
    UnescapeEscape(b, table);
  }

  /** A character outside the table passes through, so escaping leaves such text unchanged. */
  lemma {:induction false} EscapePlain(s: string, table: set<char>)
    requires forall i :: 0 <= i < |s| ==> s[i] !in table
    ensures Escape(s, table) == s
    decreases |s|
  {
    if |s| > 0 {
      EscapePlain(s[1..], table);
      assert s == [s[0]] + s[1..];
    }
  }

  /** The text `Field` writes for a value; strings are quoted with their `"` escaped. */
  function ValueText(v: FieldValue): Result<string, string> {
    match v
    case StringValue(s) => Success(Quoted(s))
    case StringerValue(str) => Success(Quoted(str))
    case _ => FieldText(v)
  }

  /** `string`: a double quote, the escaped text, a double quote. */
  function Quoted(s: string): string {
    "\"" + Escape(s, StringEscapes) + "\""
  }

  /** Apart from strings, `Field` writes values exactly as `encodeField` does. */
  lemma ValueTextAgrees(v: FieldValue)
    ensures !v.StringValue? && !v.StringerValue? ==> ValueText(v) == FieldText(v)
    ensures v.StringValue? ==> ValueText(v) == Success("\"" + Escape(v.s, StringEscapes) + "\"")
    ensures v.StringValue? && '"' !in v.s ==> ValueText(v) == FieldText(v)
  {
    if v.StringValue? && '"' !in v.s {
      EscapePlain(v.s, StringEscapes);
    }
  }

  /**
   * Backslashes are not escaped: a string value ending in one is written with its closing
   * quote right after a backslash, as if the quote were part of the value.
   */
  lemma QuotedTrailingBackslash(s: string)
    ensures var q := Quoted(s + "\\"); |q| >= 2 && q[|q| - 2] == '\\' && q[|q| - 1] == '"'
  {
    EscapeAppend(s, "\\", StringEscapes);
    assert Escape("\\", StringEscapes) == "\\";
  }

  /** `wireProtocolEncoder`: the embedded `bytes.Buffer` and the number of fields written. */
  class WireProtocolEncoder {
    var buf: string
    var fieldCount: int

    /** The zero value: an empty buffer and no fields. */
    constructor ()
      ensures buf == "" && fieldCount == 0
    {
      buf := "";
      fieldCount := 0;
    }

    method WriteByte(c: char)
      modifies this
      ensures buf == old(buf) + [c] && fieldCount == old(fieldCount)
    {
      buf := buf + [c];
    }

    method WriteString(s: string)
      modifies this
      ensures buf == old(buf) + s && fieldCount == old(fieldCount)
    {
      buf := buf + s;
    }

    /** `Replacer.WriteString(enc, s)`: the escaped text, character by character. */
    method WriteEscaped(s: string, table: set<char>)
      modifies this
      ensures buf == old(buf) + Escape(s, table) && fieldCount == old(fieldCount)
    {
      ghost var start := buf;
      for i := 0 to |s|
        invariant buf == start + Escape(s[..i], table)
        invariant fieldCount == old(fieldCount)
      {
        EscapeAppend(s[..i], [s[i]], table);
        assert s[..i + 1] == s[..i] + [s[i]];
        if s[i] in table {
          buf := buf + ['\\', s[i]];
        } else {
          buf := buf + [s[i]];
        }
      }
      assert s[..|s|] == s;
    }

    method Measurement(name: string)
      modifies this
      ensures buf == old(buf) + Escape(name, MeasurementEscapes) && fieldCount == old(fieldCount)
    {
      WriteEscaped(name, MeasurementEscapes);
    }

    method Tag(name: string, value: string)
      modifies this
      ensures buf == old(buf) + "," + Escape(name, LabelEscapes) + "=" + Escape(value, LabelEscapes)
      ensures fieldCount == old(fieldCount)
    {
      WriteByte(',');
      WriteEscaped(name, LabelEscapes);
      WriteByte('=');
      WriteEscaped(value, LabelEscapes);
    }

    /** `string`: a quoted string value. */
    method QuotedString(s: string)
      modifies this
      ensures buf == old(buf) + Quoted(s) && fieldCount == old(fieldCount)
    {
      WriteByte('"');
      WriteEscaped(s, StringEscapes);
      WriteByte('"');
    }

    /**
     * A space before the first field and a comma before every later one, the escaped name,
     * `=` and the value. The count goes up on every call; on an error the separator, name
     * and `=` stay in the buffer.
     */
    method Field(name: string, value: FieldValue) returns (err: Option<string>)
      modifies this
      ensures fieldCount == old(fieldCount) + 1
      ensures ValueText(value).Success? ==>
        err == None && buf == old(buf) + FieldHead(old(fieldCount), name) + ValueText(value).value
      ensures ValueText(value).Failure? ==>
        err == Some(ValueText(value).error) && buf == old(buf) + FieldHead(old(fieldCount), name)
    {
      ghost var start := buf;
      if fieldCount == 0 {
        WriteByte(' ');
      } else {
        WriteByte(',');
      }
      fieldCount := fieldCount + 1;
      WriteEscaped(name, LabelEscapes);
      WriteByte('=');
      assert buf == start + FieldHead(old(fieldCount), name);
      err := WriteValue(value);
    }

    /** The value part of `Field`: its text, or nothing and the error. */
    method WriteValue(value: FieldValue) returns (err: Option<string>)
      modifies this
      ensures fieldCount == old(fieldCount)
      ensures ValueText(value).Success? ==> err == None && buf == old(buf) + ValueText(value).value
      ensures ValueText(value).Failure? ==> err == Some(ValueText(value).error) && buf == old(buf)
    {
      err := None;
      match value
      case IntValue(_, i) =>
        WriteString(FormatInt(i));
        WriteByte('i');
      case UintValue(_, u) =>
        WriteString(FormatUint(u));
        WriteByte('i');
      case StringValue(s) =>
        QuotedString(s);
      case TimeValue(t) =>
        WriteString(FormatInt(t));
        WriteByte('i');
      case DurationValue(d) =>
        WriteString(FormatInt(d));
        WriteByte('i');
      case FloatValue(text) =>
        WriteString(text);
      case BoolValue(b) =>
        if b {
          WriteByte('t');
        } else {
          WriteByte('f');
        }
      case StringerValue(str) =>
        QuotedString(str);
      case NilValue =>
        err := Some("field value is nil");
      case OtherValue(typeName) =>
        err := Some("unknown field type: " + typeName);
    }

    method Timestamp(t: int)
      modifies this
      ensures buf == old(buf) + " " + FormatInt(t) && fieldCount == old(fieldCount)
    {
      WriteByte(' ');
      WriteString(FormatInt(t));
    }

    method Reset()
      modifies this
      ensures buf == "" && fieldCount == 0
    {
      buf := "";
      fieldCount := 0;
    }
  }

  /** What `Field` writes before the value: the separator, the escaped name and `=`. */
  function FieldHead(count: int, name: string): string {
    (if count == 0 then " " else ",") + Escape(name, LabelEscapes) + "="
  }
}
