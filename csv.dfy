/**
 * The CSV text the search page downloads: every value wrapped in double quotes with each inner
 * quote doubled, values of a row joined by commas, rows joined by newlines. A reader for that
 * format is given alongside, and reading back what was written returns the rows.
 */
module Csv {
  import opened Wrappers
  import opened Text

  /** `value.replace(/"/g, '""')` */
  function EscapeQuotes(v: string): (e: string)
    ensures |e| >= |v|
    ensures '"' !in v ==> e == v
  {
    if v == [] then [] else (if v[0] == '"' then "\"\"" else [v[0]]) + EscapeQuotes(v[1..])
  }

  /** `"${value.replace(/"/g, '""')}"` */
  function QuoteField(v: string): (f: string)
    ensures |f| >= 2 && f[0] == '"' && f[|f| - 1] == '"'
  {
    "\"" + EscapeQuotes(v) + "\""
  }

  /** `row.map(quote)` */
  function QuoteAll(fields: seq<string>): (r: seq<string>)
    ensures |r| == |fields|
    ensures forall i :: 0 <= i < |fields| ==> r[i] == QuoteField(fields[i])
  {
    seq(|fields|, i requires 0 <= i < |fields| => QuoteField(fields[i]))
  }

  /** One line of the file: the quoted values joined by commas. */
  function RenderRow(fields: seq<string>): string {
    Join(QuoteAll(fields), ',')
  }

  /** `rows.map(renderRow)` */
  function RenderAll(rows: seq<seq<string>>): (r: seq<string>)
    ensures |r| == |rows|
    ensures forall i :: 0 <= i < |rows| ==> r[i] == RenderRow(rows[i])
  {
    seq(|rows|, i requires 0 <= i < |rows| => RenderRow(rows[i]))
  }

  /** The whole file: the lines joined by newlines, with no newline at the end. */
  function RenderRows(rows: seq<seq<string>>): string {
    Join(RenderAll(rows), '\n')
  }

  /** A value read from the front of a text, and the text after it. */
  datatype Read = Read(value: string, rest: string)

  /** Reads the inside of a quoted value, up to and including its closing quote. */
  function ReadQuoted(s: string): (r: Option<Read>)
    ensures r.Some? ==> |r.value.rest| < |s|
    decreases |s|
  {
    if s == [] then None
    else if s[0] == '"' then
      if |s| >= 2 && s[1] == '"' then
        match ReadQuoted(s[2..])
        case None => None
        case Some(Read(v, rest)) => Some(Read("\"" + v, rest))
      else Some(Read("", s[1..]))
    else
      match ReadQuoted(s[1..])
      case None => None
      case Some(Read(v, rest)) => Some(Read([s[0]] + v, rest))
  }

  /** Reads one quoted value from the front of `s`. */
  function ParseField(s: string): (r: Option<Read>)
    ensures r.Some? ==> |r.value.rest| < |s|
  {
    if s != [] && s[0] == '"' then ReadQuoted(s[1..]) else None
  }

  /** The value a single quoted field stands for, when `f` is exactly one quoted field. */
  function Unquote(f: string): (r: Option<string>)
  {
    match ParseField(f)
    case Some(Read(v, rest)) => if rest == [] then Some(v) else None
    case None => None
  }

  /** A line read from the front of a text: its values, and the text from the line break on. */
  datatype RowRead = RowRead(fields: seq<string>, rest: string)

  /** Reads one line of comma-separated quoted values; it ends at a newline or at the end of the text. */
  function ParseRow(s: string): (r: Option<RowRead>)
    ensures r.Some? ==> |r.value.fields| >= 1 && |r.value.rest| < |s|
    ensures r.Some? ==> r.value.rest == [] || r.value.rest[0] == '\n'
    decreases |s|
  {
    match ParseField(s)
    case None => None
    case Some(Read(v, rest)) =>
      if rest != [] && rest[0] == ',' then
        match ParseRow(rest[1..])
        case None => None
        case Some(RowRead(fs, t)) => Some(RowRead([v] + fs, t))
      else if rest == [] || rest[0] == '\n' then Some(RowRead([v], rest))
      else None
  }

  /** Reads a whole file of lines. */
  function ParseRows(s: string): (r: Option<seq<seq<string>>>)
    ensures r.Some? ==> |r.value| >= 1
    decreases |s|
  {
    match ParseRow(s)
    case None => None
    case Some(RowRead(fields, rest)) =>
      if rest == [] then Some([fields])
      else
        match ParseRows(rest[1..])
        case None => None
        case Some(rows) => Some([fields] + rows)
  }

  /** The closing quote ends a quoted value when no second quote follows it. */
  lemma ReadQuotedClose(t: string)
    requires t == [] || t[0] != '"'
    ensures ReadQuoted(EscapeQuotes([]) + "\"" + t) == Some(Read([], t))
  {
    var s := "\"" + t;
    assert EscapeQuotes([]) + "\"" + t == s;
    assert s[1..] == t;
  }

  /** A quote of the value is written doubled and read back as one quote. */
  lemma ReadQuotedDoubled(v: string, t: string)
    requires v != [] && v[0] == '"'
    requires ReadQuoted(EscapeQuotes(v[1..]) + "\"" + t) == Some(Read(v[1..], t))
    ensures ReadQuoted(EscapeQuotes(v) + "\"" + t) == Some(Read(v, t))
  {
    var tail := EscapeQuotes(v[1..]) + "\"" + t;
    var s := "\"\"" + tail;
    assert EscapeQuotes(v) + "\"" + t == s;
    assert s[2..] == tail;
    assert "\"" + v[1..] == v;
  }

  /** Any other character of the value is written and read back as itself. */
  lemma ReadQuotedPlain(v: string, t: string)
    requires v != [] && v[0] != '"'
    requires ReadQuoted(EscapeQuotes(v[1..]) + "\"" + t) == Some(Read(v[1..], t))
    ensures ReadQuoted(EscapeQuotes(v) + "\"" + t) == Some(Read(v, t))
  {
    var tail := EscapeQuotes(v[1..]) + "\"" + t;
    var s := [v[0]] + tail;
    assert EscapeQuotes(v) + "\"" + t == s;
    assert s[1..] == tail;
    assert [v[0]] + v[1..] == v;
  }

  /** The escaped value followed by its closing quote reads back as the value. */
  lemma {:induction false} ReadQuotedEscape(v: string, t: string)
    requires t == [] || t[0] != '"'
    ensures ReadQuoted(EscapeQuotes(v) + "\"" + t) == Some(Read(v, t))
  {
    if v == [] {
      ReadQuotedClose(t);
    } else {
      ReadQuotedEscape(v[1..], t);
      if v[0] == '"' {
        ReadQuotedDoubled(v, t);
      } else {
        ReadQuotedPlain(v, t);
      }
    }
  }

  /** A quoted field followed by anything but a quote reads back as its value. */
  lemma ParseQuoted(v: string, t: string)
    requires t == [] || t[0] != '"'
    ensures ParseField(QuoteField(v) + t) == Some(Read(v, t))
  {
    var s := QuoteField(v) + t;
    assert s[1..] == EscapeQuotes(v) + "\"" + t;
    ReadQuotedEscape(v, t);
  }

  /** Removing the outer quotes and un-doubling the inner ones gives back the value. */
  lemma UnquoteQuote(v: string)
    ensures Unquote(QuoteField(v)) == Some(v)
  {
    ParseQuoted(v, "");
    assert QuoteField(v) + "" == QuoteField(v);
  }

  /** Distinct values are written as distinct fields. */
  lemma QuoteFieldInjective(v: string, w: string)
    requires QuoteField(v) == QuoteField(w)
    ensures v == w
  {
    UnquoteQuote(v);
    UnquoteQuote(w);
  }

  /** A line of two or more values is the first quoted value, a comma, and the line of the rest. */
  lemma RenderRowCons(fields: seq<string>)
    requires |fields| >= 2
    ensures RenderRow(fields) == QuoteField(fields[0]) + [','] + RenderRow(fields[1..])
  {
    assert QuoteAll(fields)[1..] == QuoteAll(fields[1..]);
  }

  /** A line of one value followed by the end of the text or a line break reads back. */
  lemma ParseRowSingle(fields: seq<string>, t: string)
    requires |fields| == 1
    requires t == [] || t[0] == '\n'
    ensures ParseRow(RenderRow(fields) + t) == Some(RowRead(fields, t))
  {
    assert RenderRow(fields) == QuoteField(fields[0]);
    ParseQuoted(fields[0], t);
    assert [fields[0]] == fields;
  }

  /** A value followed by a comma reads in front of the values that follow. */
  lemma ParseRowComma(s: string, v: string, rest: string, fs: seq<string>, t: string)
    requires ParseField(s) == Some(Read(v, rest))
    requires rest != [] && rest[0] == ','
    requires ParseRow(rest[1..]) == Some(RowRead(fs, t))
    ensures ParseRow(s) == Some(RowRead([v] + fs, t))
  {
  }

  /** The text of a line of two or more values, followed by `t`, split after its first value. */
  lemma RenderRowLayout(fields: seq<string>, t: string)
    requires |fields| >= 2
    ensures RenderRow(fields) + t == QuoteField(fields[0]) + ([','] + RenderRow(fields[1..]) + t)
    ensures ([','] + RenderRow(fields[1..]) + t)[1..] == RenderRow(fields[1..]) + t
  {
    RenderRowCons(fields);
  }

  /** The first value and its comma read back in front of the values of the rest of the line. */
  lemma ParseRowCons(fields: seq<string>, t: string)
    requires |fields| >= 2
    requires ParseRow(RenderRow(fields[1..]) + t) == Some(RowRead(fields[1..], t))
    ensures ParseRow(RenderRow(fields) + t) == Some(RowRead(fields, t))
  {
    var after := [','] + RenderRow(fields[1..]) + t;
    RenderRowLayout(fields, t);
    ParseQuoted(fields[0], after);
    ParseRowComma(RenderRow(fields) + t, fields[0], after, fields[1..], t);
    assert [fields[0]] + fields[1..] == fields;
  }

  /** A rendered line followed by the end of the text or a line break reads back as its values. */
  lemma {:induction false} ParseRowRender(fields: seq<string>, t: string)
    requires |fields| >= 1
    requires t == [] || t[0] == '\n'
    ensures ParseRow(RenderRow(fields) + t) == Some(RowRead(fields, t))
    decreases |fields|
  {
    if |fields| == 1 {
      ParseRowSingle(fields, t);
    } else {
      ParseRowRender(fields[1..], t);
      ParseRowCons(fields, t);
    }
  }

  /** Reading back a rendered file gives its rows, when every row has at least one value. */
  lemma {:induction false} ParseRowsRender(rows: seq<seq<string>>)
    requires |rows| >= 1
    requires forall i :: 0 <= i < |rows| ==> |rows[i]| >= 1
    ensures ParseRows(RenderRows(rows)) == Some(rows)
  {
    var lines := RenderAll(rows);
    if |rows| == 1 {
      assert RenderRows(rows) == RenderRow(rows[0]);
      ParseRowRender(rows[0], []);
      assert RenderRow(rows[0]) + [] == RenderRow(rows[0]);
      assert [rows[0]] == rows;
    } else {
      var rest := rows[1..];
      assert lines[1..] == RenderAll(rest);
      assert RenderRows(rows) == RenderRow(rows[0]) + ['\n'] + RenderRows(rest);
      var after := ['\n'] + RenderRows(rest);
      assert RenderRows(rows) == RenderRow(rows[0]) + after;
      ParseRowRender(rows[0], after);
      assert after[1..] == RenderRows(rest);
      ParseRowsRender(rest);
      assert [rows[0]] + rest == rows;
    }
  }
}
