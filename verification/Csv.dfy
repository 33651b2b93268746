/** Tables printed as comma-separated values, undone by a reader after section 2 of RFC 4180. */
module Csv {
  import opened Common

  type Row = seq<string>

  // ---------- printing ----------

  predicate NeedsQuotes(s: string) { ',' in s || '"' in s || '\n' in s }

  /** `s.replace('"', "\"\"")` */
  function Doubled(s: string): string {
    if s == "" then "" else (if s[0] == '"' then "\"\"" else [s[0]]) + Doubled(s[1..])
  }

  function Escape(s: string): string {
    if NeedsQuotes(s) then "\"" + Doubled(s) + "\"" else s
  }

  function PrintRow(row: Row): string {
    if row == [] then ""
    else if |row| == 1 then Escape(row[0])
    else Escape(row[0]) + "," + PrintRow(row[1..])
  }

  function PrintRows(rows: seq<Row>): string {
    if rows == [] then ""
    else if |rows| == 1 then PrintRow(rows[0])
    else PrintRow(rows[0]) + "\n" + PrintRows(rows[1..])
  }

  lemma {:induction false} PrintRowSnoc(row: Row, c: string)
    ensures PrintRow(row + [c]) == if row == [] then Escape(c) else PrintRow(row) + "," + Escape(c)
  {
    if row == [] {
      assert row + [c] == [c];
    } else {
      assert (row + [c])[1..] == row[1..] + [c];
      PrintRowSnoc(row[1..], c);
      if |row| > 1 {
        Assoc(PrintRow(row[1..]), ",", Escape(c));
        Assoc(Escape(row[0]) + ",", PrintRow(row[1..]), "," + Escape(c));
        Assoc(PrintRow(row), ",", Escape(c));
      }
    }
  }

  lemma {:induction false} PrintRowsSnoc(rows: seq<Row>, r: Row)
    ensures PrintRows(rows + [r]) == if rows == [] then PrintRow(r) else PrintRows(rows) + "\n" + PrintRow(r)
  {
    if rows == [] {
      assert rows + [r] == [r];
    } else {
      assert (rows + [r])[1..] == rows[1..] + [r];
      PrintRowsSnoc(rows[1..], r);
      if |rows| > 1 {
        Assoc(PrintRows(rows[1..]), "\n", PrintRow(r));
        Assoc(PrintRow(rows[0]) + "\n", PrintRows(rows[1..]), "\n" + PrintRow(r));
        Assoc(PrintRows(rows), "\n", PrintRow(r));
      }
    }
  }

  /** The cells of one line, escaped and joined. */
  method JoinCells(row: Row) returns (out: string)
    ensures out == PrintRow(row)
  {
    out := "";
    for i := 0 to |row|
      invariant out == PrintRow(row[..i])
    {
      PrintRowSnoc(row[..i], row[i]);
      assert row[..i + 1] == row[..i] + [row[i]];
      if i > 0 {
        out := out + ",";
      } else {
        assert out + Escape(row[i]) == Escape(row[i]);
      }
      out := out + Escape(row[i]);
    }
    assert row[..|row|] == row;
  }

  /** The lines of the table body. */
  method JoinRows(rows: seq<Row>) returns (out: string)
    ensures out == PrintRows(rows)
  {
    out := "";
    for ri := 0 to |rows|
      invariant ri == |rows| || ri == 0 ==> out == PrintRows(rows[..ri])
      invariant 0 < ri < |rows| ==> out == PrintRows(rows[..ri]) + "\n"
    {
      PrintRowsSnoc(rows[..ri], rows[ri]);
      assert rows[..ri + 1] == rows[..ri] + [rows[ri]];
      var line := JoinCells(rows[ri]);
      assert ri == 0 ==> out + line == line;
      out := out + line;
      if ri + 1 < |rows| { out := out + "\n"; }
    }
    assert rows[..|rows|] == rows;
  }

  method FormatTableCsv(headers: Row, rows: seq<Row>) returns (out: string)
    ensures out == PrintRows(if headers == [] then rows else [headers] + rows)
  {
    out := "";
    if headers != [] {
      out := JoinCells(headers);
      if rows != [] { out := out + "\n"; }
    }
    var body := JoinRows(rows);
    assert headers == [] ==> out + body == body;
    assert ([headers] + rows)[1..] == rows;
    assert rows == [] ==> out + body == out;
    out := out + body;
  }

  // ---------- reading ----------

  datatype Mode = Start | Plain | Quoted | Closed

  function Parse(s: string, mode: Mode, field: string, row: Row, table: seq<Row>): Option<seq<Row>> {
    if s == "" then if mode.Quoted? then None else Some(table + [row + [field]])
    else if mode.Quoted? then
      if s[0] == '"' then Parse(s[1..], Closed, field, row, table)
      else Parse(s[1..], Quoted, field + [s[0]], row, table)
    else if s[0] == ',' then Parse(s[1..], Start, "", row + [field], table)
    else if s[0] == '\n' then Parse(s[1..], Start, "", [], table + [row + [field]])
    else match mode
      case Start =>
        if s[0] == '"' then Parse(s[1..], Quoted, "", row, table) else Parse(s[1..], Plain, [s[0]], row, table)
      case Plain => if s[0] == '"' then None else Parse(s[1..], Plain, field + [s[0]], row, table)
      case Quoted => None
      case Closed => if s[0] == '"' then Parse(s[1..], Quoted, field + ['"'], row, table) else None
  }

  function ParseTable(s: string): Option<seq<Row>> { Parse(s, Start, "", [], []) }

  /** What may follow a cell. */
  predicate AtBreak(t: string) { t == "" || t[0] == ',' || t[0] == '\n' }

  /** Going on after a finished cell. */
  function Resume(t: string, cell: string, row: Row, table: seq<Row>): Option<seq<Row>>
    requires AtBreak(t)
  {
    if t == "" then Some(table + [row + [cell]])
    else if t[0] == ',' then Parse(t[1..], Start, "", row + [cell], table)
    else Parse(t[1..], Start, "", [], table + [row + [cell]])
  }

  lemma {:induction false} PlainCell(c: string, t: string, field: string, row: Row, table: seq<Row>)
    requires !NeedsQuotes(c) && AtBreak(t)
    ensures Parse(c + t, Plain, field, row, table) == Resume(t, field + c, row, table)
  {
    if c == "" {
      assert c + t == t && field + c == field;
    } else {
      assert (c + t)[1..] == c[1..] + t;
      assert field + [c[0]] + c[1..] == field + c;
      PlainCell(c[1..], t, field + [c[0]], row, table);
    }
  }

  lemma {:induction false} QuotedCell(c: string, t: string, field: string, row: Row, table: seq<Row>)
    requires AtBreak(t)
    ensures Parse(Doubled(c) + "\"" + t, Quoted, field, row, table) == Resume(t, field + c, row, table)
  {
    var s := Doubled(c) + "\"" + t;
    if c == "" {
      assert s[1..] == t && field + c == field;
    } else {
      var rest := Doubled(c[1..]) + "\"" + t;
      assert field + [c[0]] + c[1..] == field + c;
      QuotedCell(c[1..], t, field + [c[0]], row, table);
      if c[0] == '"' {
        assert s == "\"\"" + rest;
        assert s[1..][1..] == rest;
      } else {
        assert s == [c[0]] + rest;
        assert s[1..] == rest;
      }
    }
  }

  lemma ParseCell(c: string, t: string, row: Row, table: seq<Row>)
    requires AtBreak(t)
    ensures Parse(Escape(c) + t, Start, "", row, table) == Resume(t, c, row, table)
  {
    if NeedsQuotes(c) {
      ParseQuoted(c, t, row, table);
    } else if c == "" {
      assert Escape(c) + t == t;
    } else {
      ParsePlain(c, t, row, table);
    }
  }

  lemma ParseQuoted(c: string, t: string, row: Row, table: seq<Row>)
    requires AtBreak(t)
    ensures Parse("\"" + Doubled(c) + "\"" + t, Start, "", row, table) == Resume(t, c, row, table)
  {
    var s := "\"" + Doubled(c) + "\"" + t;
    assert s[1..] == Doubled(c) + "\"" + t;
    QuotedCell(c, t, "", row, table);
    assert "" + c == c;
  }

  lemma ParsePlain(c: string, t: string, row: Row, table: seq<Row>)
    requires c != "" && !NeedsQuotes(c) && AtBreak(t)
    ensures Parse(c + t, Start, "", row, table) == Resume(t, c, row, table)
  {
    assert (c + t)[1..] == c[1..] + t;
    PlainCell(c[1..], t, [c[0]], row, table);
    assert [c[0]] + c[1..] == c;
  }

  /** A line without cells reads as one empty cell. */
  function Padded(row: Row): Row { if row == [] then [""] else row }

  function PaddedAll(rows: seq<Row>): (r: seq<Row>)
    ensures |r| == |rows| && forall i :: 0 <= i < |rows| ==> r[i] == Padded(rows[i])
  {
    if rows == [] then [] else [Padded(rows[0])] + PaddedAll(rows[1..])
  }

  /** What follows a line: the end, or a newline and more. */
  function AfterRow(t: string, row: Row, table: seq<Row>): Option<seq<Row>>
    requires t == "" || t[0] == '\n'
  {
    if t == "" then Some(table + [row]) else Parse(t[1..], Start, "", [], table + [row])
  }

  lemma {:induction false} ParseRow(row: Row, t: string, before: Row, table: seq<Row>)
    requires t == "" || t[0] == '\n'
    ensures Parse(PrintRow(row) + t, Start, "", before, table) == AfterRow(t, before + Padded(row), table)
  {
    if |row| <= 1 {
      ParseShortRow(row, t, before, table);
    } else {
      ParseLongRow(row, t, before, table);
      ParseRow(row[1..], t, before + [row[0]], table);
      assert before + [row[0]] + row[1..] == before + row;
    }
  }

  lemma ParseShortRow(row: Row, t: string, before: Row, table: seq<Row>)
    requires |row| <= 1 && (t == "" || t[0] == '\n')
    ensures Parse(PrintRow(row) + t, Start, "", before, table) == AfterRow(t, before + Padded(row), table)
  {
    var cell := if row == [] then "" else row[0];
    assert Padded(row) == [cell] && PrintRow(row) == Escape(cell);
    ParseCell(cell, t, before, table);
  }

  lemma ParseLongRow(row: Row, t: string, before: Row, table: seq<Row>)
    requires |row| > 1
    ensures Parse(PrintRow(row) + t, Start, "", before, table)
         == Parse(PrintRow(row[1..]) + t, Start, "", before + [row[0]], table)
  {
    var rest := PrintRow(row[1..]) + t;
    assert PrintRow(row) + t == Escape(row[0]) + ("," + rest);
    ParseFirst(row[0], rest, before, table);
  }

  lemma ParseFirst(c: string, rest: string, before: Row, table: seq<Row>)
    ensures Parse(Escape(c) + ("," + rest), Start, "", before, table) == Parse(rest, Start, "", before + [c], table)
  {
    ParseCell(c, "," + rest, before, table);
    assert ("," + rest)[1..] == rest;
  }

  lemma {:induction false} ParseRows(rows: seq<Row>, table: seq<Row>)
    requires rows != []
    ensures Parse(PrintRows(rows), Start, "", [], table) == Some(table + PaddedAll(rows))
  {
    if |rows| == 1 {
      ParseRow(rows[0], "", [], table);
      assert PrintRow(rows[0]) + "" == PrintRow(rows[0]);
      assert [] + Padded(rows[0]) == Padded(rows[0]);
      assert PaddedAll(rows) == [Padded(rows[0])];
    } else {
      var t := "\n" + PrintRows(rows[1..]);
      assert PrintRows(rows) == PrintRow(rows[0]) + t;
      ParseRow(rows[0], t, [], table);
      assert [] + Padded(rows[0]) == Padded(rows[0]);
      assert t[1..] == PrintRows(rows[1..]);
      ParseRows(rows[1..], table + [Padded(rows[0])]);
      assert table + [Padded(rows[0])] + PaddedAll(rows[1..]) == table + PaddedAll(rows);
    }
  }

  lemma {:induction false} PaddedSameIff(rows: seq<Row>)
    ensures PaddedAll(rows) == rows <==> forall i :: 0 <= i < |rows| ==> rows[i] != []
  {
    if i :| 0 <= i < |rows| && rows[i] == [] {
      assert PaddedAll(rows)[i] == [""];
    }
  }

  /** Whatever the cells hold, a printed table with headers reads back as itself if and only if
      every row has a cell. */
  lemma CsvRoundTripIff(headers: Row, rows: seq<Row>)
    requires headers != []
    ensures ParseTable(PrintRows([headers] + rows)) == Some([headers] + rows) <==> forall r :: r in rows ==> r != []
  {
    var all := [headers] + rows;
    ReadBack(all);
    PaddedSameIff(all);
    NoEmptyRows(headers, rows);
  }

  lemma ReadBack(rows: seq<Row>)
    requires rows != []
    ensures ParseTable(PrintRows(rows)) == Some(PaddedAll(rows))
  {
    ParseRows(rows, []);
    assert [] + PaddedAll(rows) == PaddedAll(rows);
  }

  lemma NoEmptyRows(headers: Row, rows: seq<Row>)
    requires headers != []
    ensures (forall i :: 0 <= i < |[headers] + rows| ==> ([headers] + rows)[i] != [])
       <==> forall r :: r in rows ==> r != []
  {
    var all := [headers] + rows;
    if forall i :: 0 <= i < |all| ==> all[i] != [] {
      forall r | r in rows ensures r != [] {
        var i :| 0 <= i < |rows| && rows[i] == r;
        assert all[i + 1] == r;
      }
    }
    if forall r :: r in rows ==> r != [] {
      forall i | 0 <= i < |all| ensures all[i] != [] {
        if i > 0 { assert all[i] in rows; }
      }
    }
  }

  /** So distinct tables never print alike. */
  lemma CsvInjective(h: Row, rows: seq<Row>, h': Row, rows': seq<Row>)
    requires h != [] && h' != [] && (forall r :: r in rows ==> r != []) && (forall r :: r in rows' ==> r != [])
    requires PrintRows([h] + rows) == PrintRows([h'] + rows')
    ensures h == h' && rows == rows'
  {
    CsvRoundTripIff(h, rows);
    CsvRoundTripIff(h', rows');
    assert ([h] + rows)[0] == ([h'] + rows')[0];
    assert ([h] + rows)[1..] == rows && ([h'] + rows')[1..] == rows';
  }

  /** A row of no cells and a row of one empty cell print the same. */
  lemma EmptyRowWitness()
    ensures PrintRows([["h"]] + [[]]) == PrintRows([["h"]] + [[""]])
  {
    assert ([["h"]] + [[]])[1..] == [[]] && ([["h"]] + [[""]])[1..] == [[""]];
  }
}
