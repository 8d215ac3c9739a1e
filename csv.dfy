/** The CSV text built by `downloadCSV` in components/AdminPanel.tsx: a header
    line of field names, then one line per record with every field quoted and
    its quotes doubled. A reader for such lines is defined alongside, so that
    the escaping can be shown to lose nothing. */
module Csv {
  import opened Wrappers
  import opened Text

  /** `String(value).replace(/"/g, '""')`. */
  function DoubleQuotes(s: string): (r: string)
    ensures |r| >= |s|
    decreases |s|
  {
    if s == [] then []
    else (if s[0] == '"' then "\"\"" else [s[0]]) + DoubleQuotes(s[1..])
  }

  /** One CSV field: the text with its quotes doubled, between quotes. */
  function EscapeField(s: string): (e: string)
    ensures |e| >= 2 && e[0] == '"' && e[|e| - 1] == '"'
  {
    "\"" + DoubleQuotes(s) + "\""
  }

  /** Text without quotes needs no doubling. */
  lemma {:induction false} DoubleQuotesQuoteFree(s: string)
    requires '"' !in s
    ensures DoubleQuotes(s) == s
    decreases |s|
  {
    if s != [] {
      assert s[0] != '"';
      assert '"' !in s[1..] by {
        forall i | 0 <= i < |s| - 1 ensures s[1..][i] != '"' {
          assert s[1..][i] == s[i + 1];
        }
      }
      DoubleQuotesQuoteFree(s[1..]);
      assert [s[0]] + s[1..] == s;
    }
  }

  /** A field without quotes is simply wrapped in quotes. */
  lemma EscapeQuoteFree(s: string)
    requires '"' !in s
    ensures EscapeField(s) == "\"" + s + "\""
  {
    DoubleQuotesQuoteFree(s);
  }

  /** The doubling adds exactly one character per quote. */
  lemma {:induction false} DoubleQuotesLength(s: string)
    ensures |DoubleQuotes(s)| == |s| + multiset(s)['"']
    decreases |s|
  {
    if s != [] {
      DoubleQuotesLength(s[1..]);
      assert s == [s[0]] + s[1..];
      assert multiset(s) == multiset([s[0]]) + multiset(s[1..]);
    }
  }

  /** Reverses the doubling: each `""` becomes one quote. */
  function CollapseQuotes(s: string): string
    decreases |s|
  {
    if |s| >= 2 && s[0] == '"' && s[1] == '"' then "\"" + CollapseQuotes(s[2..])
    else if s == [] then []
    else [s[0]] + CollapseQuotes(s[1..])
  }

  lemma {:induction false} CollapseDoubled(s: string)
    ensures CollapseQuotes(DoubleQuotes(s)) == s
    decreases |s|
  {
    if s != [] {
      CollapseDoubled(s[1..]);
      if s[0] == '"' {
        assert DoubleQuotes(s) == "\"\"" + DoubleQuotes(s[1..]);
        assert DoubleQuotes(s)[2..] == DoubleQuotes(s[1..]);
      } else {
        assert DoubleQuotes(s) == [s[0]] + DoubleQuotes(s[1..]);
        assert DoubleQuotes(s)[1..] == DoubleQuotes(s[1..]);
      }
    }
  }

  /** Stripping the outer quotes of an escaped field and collapsing the doubled
      quotes gives back the text. */
  lemma FieldRoundTrip(s: string)
    ensures var e := EscapeField(s); CollapseQuotes(e[1..|e| - 1]) == s
  {
    var e := EscapeField(s);
    assert e[1..|e| - 1] == DoubleQuotes(s);
    CollapseDoubled(s);
  }

  /** Reads the inside of a quoted field (the opening quote already consumed):
      the field's text and what follows its closing quote. None when the quote
      is never closed. */
  function ReadQuoted(s: string): (r: Option<(string, string)>)
    ensures r.Some? ==> |r.value.1| < |s|
    decreases |s|
  {
    if s == [] then None
    else if s[0] == '"' then
      if |s| >= 2 && s[1] == '"' then
        match ReadQuoted(s[2..])
        case None => None
        case Some(p) => Some(("\"" + p.0, p.1))
      else Some(([], s[1..]))
    else
      match ReadQuoted(s[1..])
      case None => None
      case Some(p) => Some(([s[0]] + p.0, p.1))
  }

  /** One or more quoted fields separated by commas, up to the end of the text. */
  function ReadFields(s: string): Option<seq<string>>
    decreases |s|
  {
    if s == [] || s[0] != '"' then None
    else
      match ReadQuoted(s[1..])
      case None => None
      case Some(p) =>
        if p.1 == [] then Some([p.0])
        else if p.1[0] == ',' then
          match ReadFields(p.1[1..])
          case None => None
          case Some(rest) => Some([p.0] + rest)
        else None
  }

  /** A data line as a list of field texts; the empty line has no fields. */
  function ReadRow(line: string): (r: Option<seq<string>>)
    ensures line == [] ==> r == Some([])
  {
    if line == [] then Some([]) else ReadFields(line)
  }

  function EscapeAll(texts: seq<string>): (es: seq<string>)
    ensures |es| == |texts| && forall i :: 0 <= i < |texts| ==> es[i] == EscapeField(texts[i])
  {
    seq(|texts|, i requires 0 <= i < |texts| => EscapeField(texts[i]))
  }

  /** The data line of a record whose field texts, in header order, are `texts`. */
  function RowLine(texts: seq<string>): string {
    Join(EscapeAll(texts), ",")
  }

  /** A doubled quote inside a quoted field reads as one quote. */
  lemma ReadDoubledQuote(inner: string, t: string, rest: string)
    requires ReadQuoted(inner) == Some((t, rest))
    ensures ReadQuoted("\"\"" + inner) == Some(("\"" + t, rest))
  {
    var s := "\"\"" + inner;
    assert s[0] == '"' && s[1] == '"' && s[2..] == inner;
  }

  /** Any other character inside a quoted field reads as itself. */
  lemma ReadPlainChar(c: char, inner: string, t: string, rest: string)
    requires c != '"' && ReadQuoted(inner) == Some((t, rest))
    ensures ReadQuoted([c] + inner) == Some(([c] + t, rest))
  {
    var s := [c] + inner;
    assert s[0] == c && s[1..] == inner;
  }

  /** The reader takes one more escaped character of the field. */
  lemma ReadEscapedStep(t: string, rest: string)
    requires t != []
    requires ReadQuoted(DoubleQuotes(t[1..]) + "\"" + rest) == Some((t[1..], rest))
    ensures ReadQuoted(DoubleQuotes(t) + "\"" + rest) == Some((t, rest))
  {
    var inner := DoubleQuotes(t[1..]) + "\"" + rest;
    if t[0] == '"' {
      calc {
        ReadQuoted(DoubleQuotes(t) + "\"" + rest);
        { assert DoubleQuotes(t) + "\"" + rest == "\"\"" + inner; }
        ReadQuoted("\"\"" + inner);
        { ReadDoubledQuote(inner, t[1..], rest); }
        Some(("\"" + t[1..], rest));
        { assert "\"" + t[1..] == t; }
        Some((t, rest));
      }
    } else {
      calc {
        ReadQuoted(DoubleQuotes(t) + "\"" + rest);
        { assert DoubleQuotes(t) + "\"" + rest == [t[0]] + inner; }
        ReadQuoted([t[0]] + inner);
        { ReadPlainChar(t[0], inner, t[1..], rest); }
        Some(([t[0]] + t[1..], rest));
        { assert [t[0]] + t[1..] == t; }
        Some((t, rest));
      }
    }
  }

  lemma {:induction false} ReadEscaped(t: string, rest: string)
    requires rest == [] || rest[0] != '"'
    ensures ReadQuoted(DoubleQuotes(t) + "\"" + rest) == Some((t, rest))
    decreases |t|
  {
    if t == [] {
      var s := DoubleQuotes(t) + "\"" + rest;
      assert s == "\"" + rest;
      assert s[1..] == rest;
    } else {
      ReadEscaped(t[1..], rest);
      ReadEscapedStep(t, rest);
    }
  }

  lemma {:induction false} ReadFieldsOfRow(texts: seq<string>)
    requires |texts| >= 1
    ensures ReadFields(RowLine(texts)) == Some(texts)
    decreases |texts|
  {
    var t := texts[0];
    var es := EscapeAll(texts);
    if |texts| == 1 {
      var line := RowLine(texts);
      assert line == "\"" + (DoubleQuotes(t) + "\"" + []);
      assert line[1..] == DoubleQuotes(t) + "\"" + [];
      ReadEscaped(t, []);
      assert ReadQuoted(line[1..]) == Some((t, []));
      assert texts == [t];
    } else {
      var tail := RowLine(texts[1..]);
      assert es[1..] == EscapeAll(texts[1..]);
      var line := RowLine(texts);
      assert line == "\"" + (DoubleQuotes(t) + "\"" + ("," + tail));
      assert line[1..] == DoubleQuotes(t) + "\"" + ("," + tail);
      assert ("," + tail)[1..] == tail;
      ReadEscaped(t, "," + tail);
      ReadFieldsOfRow(texts[1..]);
      assert [t] + texts[1..] == texts;
    }
  }

  /** Reading a data line back gives exactly its field texts, as many as there
      are fields and in the same order. */
  lemma RowRoundTrip(texts: seq<string>)
    ensures ReadRow(RowLine(texts)) == Some(texts)
  {
    if texts != [] {
      ReadFieldsOfRow(texts);
      assert RowLine(texts)[0] == '"' by {
        if |texts| > 1 {
          assert RowLine(texts) == EscapeField(texts[0]) + "," + RowLine(texts[1..]) by {
            assert EscapeAll(texts)[1..] == EscapeAll(texts[1..]);
          }
        }
      }
    }
  }

  /** Different records never print the same data line. */
  lemma RowLineInjective(a: seq<string>, b: seq<string>)
    requires RowLine(a) == RowLine(b)
    ensures a == b
  {
    RowRoundTrip(a);
    RowRoundTrip(b);
  }

  /** An exported object: its own keys in order, and the values of the keys
      that hold something other than null or undefined, already as text. */
  datatype Record = Record(keys: seq<string>, values: map<string, string>)

  /** `row[fieldName] ?? ''`. */
  function FieldText(row: Record, name: string): (t: string)
    ensures name !in row.values ==> t == []
    ensures name in row.values ==> t == row.values[name]
  {
    if name in row.values then row.values[name] else []
  }

  /** A record's field texts, in the order of the header. */
  function TextsInOrder(row: Record, headers: seq<string>): (texts: seq<string>)
    ensures |texts| == |headers|
    ensures forall j :: 0 <= j < |headers| ==> texts[j] == FieldText(row, headers[j])
  {
    seq(|headers|, j requires 0 <= j < |headers| => FieldText(row, headers[j]))
  }

  /** The lines of the file: the first record's keys joined by commas, then one
      line per record. */
  function CsvLines(data: seq<Record>): (lines: seq<string>)
    requires data != []
    ensures |lines| == |data| + 1
    ensures lines[0] == Join(data[0].keys, ",")
    ensures forall i :: 0 <= i < |data| ==> lines[i + 1] == RowLine(TextsInOrder(data[i], data[0].keys))
  {
    var headers := data[0].keys;
    [Join(headers, ",")] + seq(|data|, i requires 0 <= i < |data| => RowLine(TextsInOrder(data[i], headers)))
  }

  /** Every data line reads back as the record's values under the header's
      field names, one per header field and in header order. */
  lemma DataLinesReadBack(data: seq<Record>, i: nat)
    requires data != [] && i < |data|
    ensures ReadRow(CsvLines(data)[i + 1]) == Some(TextsInOrder(data[i], data[0].keys))
    ensures |TextsInOrder(data[i], data[0].keys)| == |data[0].keys|
  {
    RowRoundTrip(TextsInOrder(data[i], data[0].keys));
  }

  /** The file `downloadCSV` hands to the browser, or None when there is no
      record and nothing is downloaded. */
  function CsvText(data: seq<Record>): (file: Option<string>)
    ensures file.None? <==> data == []
    ensures file.Some? ==> file.value == Join(CsvLines(data), "\n")
  {
    if |data| == 0 then None else Some(Join(CsvLines(data), "\n"))
  }
}
