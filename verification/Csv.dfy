/** CSV artifacts: printing cells, and the state machine that reads them back (section 2 of RFC 4180). */
module Csv {

  type Table = seq<seq<string>>

  const BOM: char := '\U{FEFF}'

  // ----- printing -----

  predicate StartsFormula(s: string) {
    s != "" && (s[0] == '=' || s[0] == '+' || s[0] == '-' || s[0] == '@' || s[0] == '\t' || s[0] == '\r')
  }

  /** A cell a spreadsheet would evaluate is prefixed so that it reads as text. */
  function Neutralized(s: string): string {
    if StartsFormula(s) then "'" + s else s
  }

  predicate IsSpecial(c: char) {
    c == '\"' || c == ',' || c == '\n' || c == '\r'
  }

  predicate NeedsQuoting(s: string) {
    exists i :: 0 <= i < |s| && IsSpecial(s[i])
  }

  function Doubled(s: string): string {
    if s == "" then "" else (if s[0] == '\"' then "\"\"" else [s[0]]) + Doubled(s[1..])
  }

  function QuotedIfNeeded(s: string): string {
    if NeedsQuoting(s) then "\"" + Doubled(s) + "\"" else s
  }

  /** The cells joined by commas, already neutralized. */
  function RowText(cells: seq<string>): string {
    if cells == [] then "" else QuotedIfNeeded(cells[0]) + if |cells| == 1 then "" else "," + RowText(cells[1..])
  }

  function MoreCells(cells: seq<string>): string
    requires cells != []
  {
    if |cells| == 1 then "" else "," + RowText(cells[1..])
  }

  function TableText(t: Table): string {
    if t == [] then "" else RowText(t[0]) + if |t| == 1 then "" else "\n" + TableText(t[1..])
  }

  function MoreRows(t: Table): string
    requires t != []
  {
    if |t| == 1 then "" else "\n" + TableText(t[1..])
  }

  function NeutralizedRow(cells: seq<string>): (r: seq<string>)
    ensures |r| == |cells| && forall i :: 0 <= i < |r| ==> r[i] == Neutralized(cells[i])
  {
    seq(|cells|, i requires 0 <= i < |cells| => Neutralized(cells[i]))
  }

  function NeutralizedTable(t: Table): (r: Table)
    ensures |r| == |t| && forall i :: 0 <= i < |r| ==> r[i] == NeutralizedRow(t[i])
  {
    seq(|t|, i requires 0 <= i < |t| => NeutralizedRow(t[i]))
  }

  /** Rows printed with each cell neutralized, then quoted if needed, and joined by newlines. */
  function Printed(t: Table): string {
    TableText(NeutralizedTable(t))
  }

  // ----- the parser's state machine -----

  datatype State = State(rows: Table, row: seq<string>, field: string, inQuotes: bool)

  const START: State := State([], [], "", false)

  function Finished(st: State): Table {
    if st.field != "" || st.row != [] then st.rows + [st.row + [st.field]] else st.rows
  }

  /** One character outside quotes. */
  function Outside(st: State, ch: char, delimiter: char): State {
    if ch == '\"' then st.(inQuotes := true)
    else if ch == delimiter then st.(row := st.row + [st.field], field := "")
    else if ch == '\n' then State(st.rows + [st.row + [st.field]], [], "", st.inQuotes)
    else if ch == '\r' then st
    else st.(field := st.field + [ch])
  }

  function Parsed(s: string, st: State, delimiter: char): Table {
    if s == "" then Finished(st)
    else if st.inQuotes && s[0] == '\"' && |s| > 1 && s[1] == '\"' then
      Parsed(s[2..], st.(field := st.field + "\""), delimiter)
    else if st.inQuotes && s[0] == '\"' then Parsed(s[1..], st.(inQuotes := false), delimiter)
    else if st.inQuotes then Parsed(s[1..], st.(field := st.field + [s[0]]), delimiter)
    else Parsed(s[1..], Outside(st, s[0], delimiter), delimiter)
  }

  function WithoutBom(text: string): string {
    if text != "" && text[0] == BOM then text[1..] else text
  }

  method ParseCsv(text: string, delimiter: char) returns (rows: Table)
    ensures rows == Parsed(WithoutBom(text), START, delimiter)
  {
    rows := [];
    var row: seq<string>, field, inQuotes := [], "", false;
    var s := WithoutBom(text);
    var i := 0;
    while i < |s|
      invariant i <= |s|
      invariant Parsed(s, START, delimiter) == Parsed(s[i..], State(rows, row, field, inQuotes), delimiter)
    {
      var ch := s[i];
      if inQuotes {
        if ch == '\"' {
          if i + 1 < |s| && s[i + 1] == '\"' {
            field := field + "\"";
            i := i + 1;
          } else {
            inQuotes := false;
          }
        } else {
          field := field + [ch];
        }
      } else if ch == '\"' {
        inQuotes := true;
      } else if ch == delimiter {
        row := row + [field];
        field := "";
      } else if ch == '\n' {
        row := row + [field];
        rows := rows + [row];
        row := [];
        field := "";
      } else if ch == '\r' {
      } else {
        field := field + [ch];
      }
      i := i + 1;
    }
    if |field| > 0 || |row| > 0 {
      row := row + [field];
      rows := rows + [row];
    }
  }

  // ----- parsing undoes printing -----

  ghost predicate EndsCell(rest: string) {
    rest == "" || rest[0] == ',' || rest[0] == '\n'
  }

  lemma PlainTail(s: string)
    requires s != "" && !NeedsQuoting(s)
    ensures !NeedsQuoting(s[1..])
  {
    assert forall i :: 0 <= i < |s[1..]| ==> s[1..][i] == s[i + 1];
  }

  lemma {:induction false} PlainCellRead(s: string, rest: string, st: State)
    requires !st.inQuotes && !NeedsQuoting(s)
    ensures Parsed(s + rest, st, ',') == Parsed(rest, st.(field := st.field + s), ',')
    decreases |s|
  {
    if s == "" {
      assert s + rest == rest && st.field + s == st.field;
    } else {
      assert !IsSpecial(s[0]);
      PlainTail(s);
      assert (s + rest)[0] == s[0] && (s + rest)[1..] == s[1..] + rest;
      PlainCellRead(s[1..], rest, st.(field := st.field + [s[0]]));
      assert st.field + [s[0]] + s[1..] == st.field + s;
    }
  }

  lemma {:induction false} QuotedCellRead(s: string, rest: string, st: State)
    requires st.inQuotes && EndsCell(rest)
    ensures Parsed(Doubled(s) + "\"" + rest, st, ',')
            == Parsed(rest, st.(field := st.field + s, inQuotes := false), ',')
    decreases |s|
  {
    var t := Doubled(s) + "\"" + rest;
    if s == "" {
      assert t == "\"" + rest && t[1..] == rest && st.field + s == st.field;
    } else {
      var next := Doubled(s[1..]) + "\"" + rest;
      QuotedCellRead(s[1..], rest, st.(field := st.field + [s[0]]));
      assert st.field + [s[0]] + s[1..] == st.field + s;
      if s[0] == '\"' {
        assert t == "\"\"" + next && t[2..] == next;
      } else {
        assert t == [s[0]] + next && t[1..] == next;
      }
    }
  }

  lemma Reassociate(a: string, b: string, c: string, d: string)
    ensures a + b + c + d == a + (b + (c + d))
  {
  }

  lemma CellRead(s: string, rest: string, st: State)
    requires !st.inQuotes && st.field == "" && EndsCell(rest)
    ensures Parsed(QuotedIfNeeded(s) + rest, st, ',') == Parsed(rest, st.(field := s), ',')
  {
    if NeedsQuoting(s) {
      var inside := Doubled(s) + "\"" + rest;
      Reassociate("\"", Doubled(s), "\"", rest);
      Reassociate(Doubled(s), "\"", rest, "");
      var t := "\"" + inside;
      assert QuotedIfNeeded(s) + rest == t && t[1..] == inside;
      QuotedCellRead(s, rest, st.(inQuotes := true));
      assert st.field + s == s;
    } else {
      PlainCellRead(s, rest, st);
      assert st.field + s == s;
    }
  }

  lemma CellThenComma(c: string, more: string, st: State)
    requires !st.inQuotes && st.field == ""
    ensures Parsed(QuotedIfNeeded(c) + ("," + more), st, ',') == Parsed(more, st.(row := st.row + [c]), ',')
  {
    CellRead(c, "," + more, st);
    assert ("," + more)[1..] == more && ("," + more)[0] == ',';
  }

  lemma RowTextSplit(cells: seq<string>, rest: string)
    requires |cells| > 1
    ensures RowText(cells) + rest == QuotedIfNeeded(cells[0]) + ("," + (RowText(cells[1..]) + rest))
  {
    Reassociate(QuotedIfNeeded(cells[0]), MoreCells(cells), rest, "");
    Reassociate(",", RowText(cells[1..]), rest, "");
  }

  lemma InitOfCons(row: seq<string>, cells: seq<string>)
    requires |cells| > 1
    ensures row + [cells[0]] + cells[1..][..|cells[1..]| - 1] == row + cells[..|cells| - 1]
    ensures cells[1..][|cells[1..]| - 1] == cells[|cells| - 1]
  {
  }

  /** Reading a printed row leaves its last cell in the field. */
  lemma {:induction false} RowRead(cells: seq<string>, rest: string, st: State)
    requires !st.inQuotes && st.field == "" && cells != [] && (rest == "" || rest[0] == '\n')
    ensures Parsed(RowText(cells) + rest, st, ',')
            == Parsed(rest, st.(row := st.row + cells[..|cells| - 1], field := cells[|cells| - 1]), ',')
    decreases |cells|
  {
    if |cells| == 1 {
      CellRead(cells[0], rest, st);
      assert RowText(cells) == QuotedIfNeeded(cells[0]) && st.row + cells[..0] == st.row;
    } else {
      RowTextSplit(cells, rest);
      CellThenComma(cells[0], RowText(cells[1..]) + rest, st);
      RowRead(cells[1..], rest, st.(row := st.row + [cells[0]]));
      InitOfCons(st.row, cells);
    }
  }

  /** A row without cells prints like a row of one empty cell. */
  function Filled(t: Table): (r: Table)
    ensures |r| == |t| && forall i :: 0 <= i < |t| ==> r[i] == if t[i] == [] then [""] else t[i]
  {
    seq(|t|, i requires 0 <= i < |t| => if t[i] == [] then [""] else t[i])
  }

  /** The parser does not emit a last row of one empty cell. */
  function Trimmed(t: Table): Table {
    if t != [] && t[|t| - 1] == [""] then t[..|t| - 1] else t
  }

  lemma TrimmedOne(t: Table, rows: Table)
    requires |t| == 1
    ensures rows + Trimmed(t) == if t[0] == [""] then rows else rows + [t[0]]
  {
    assert t == [t[0]];
  }

  lemma TrimmedMore(t: Table, rows: Table)
    requires |t| > 1
    ensures rows + [t[0]] + Trimmed(t[1..]) == rows + Trimmed(t)
  {
    assert Trimmed(t) == [t[0]] + Trimmed(t[1..]);
  }

  lemma LastCellJoins(cells: seq<string>)
    requires cells != []
    ensures [] + cells[..|cells| - 1] + [cells[|cells| - 1]] == cells
  {
  }

  lemma RowThenEnd(cells: seq<string>, rows: Table)
    requires cells != []
    ensures Parsed(RowText(cells), State(rows, [], "", false), ',') == if cells == [""] then rows else rows + [cells]
  {
    RowRead(cells, "", State(rows, [], "", false));
    LastCellJoins(cells);
    assert RowText(cells) + "" == RowText(cells);
    if |cells| == 1 { assert cells == [cells[0]]; }
  }

  lemma RowThenMore(cells: seq<string>, more: string, rows: Table)
    requires cells != []
    ensures Parsed(RowText(cells) + ("\n" + more), State(rows, [], "", false), ',')
            == Parsed(more, State(rows + [cells], [], "", false), ',')
  {
    var rest := "\n" + more;
    RowRead(cells, rest, State(rows, [], "", false));
    LastCellJoins(cells);
    assert rest[1..] == more;
  }

  lemma {:induction false} TableRead(t: Table, rows: Table)
    requires forall i :: 0 <= i < |t| ==> t[i] != []
    ensures Parsed(TableText(t), State(rows, [], "", false), ',') == rows + Trimmed(t)
    decreases |t|
  {
    if |t| == 1 {
      RowThenEnd(t[0], rows);
      assert TableText(t) == RowText(t[0]);
      TrimmedOne(t, rows);
    } else if |t| > 1 {
      RowThenMore(t[0], TableText(t[1..]), rows);
      TableRead(t[1..], rows + [t[0]]);
      TrimmedMore(t, rows);
    }
  }

  lemma {:induction false} FilledText(t: Table)
    ensures TableText(Filled(t)) == TableText(t)
    decreases |t|
  {
    if |t| > 1 {
      FilledText(t[1..]);
      assert Filled(t)[1..] == Filled(t[1..]);
    }
  }

  /** What the reader sees when the text starts with a byte-order mark: the first cell lost it. */
  function BomDropped(t: Table): Table {
    if t != [] && t[0] != [] && t[0][0] != "" && t[0][0][0] == BOM && !NeedsQuoting(t[0][0])
    then t[0 := t[0][0 := t[0][0][1..]]]
    else t
  }

  lemma TailOfConcat(c: string, rest: string)
    requires c != ""
    ensures (c + rest)[1..] == c[1..] + rest
  {
  }

  function AfterFirstCell(t: Table): string
    requires t != [] && t[0] != []
  {
    MoreCells(t[0]) + MoreRows(t)
  }

  lemma Regroup(a: string, b: string, c: string)
    ensures (a + b) + c == a + (b + c)
  {
  }

  lemma FirstCellFirst(t: Table)
    requires t != [] && t[0] != []
    ensures TableText(t) == QuotedIfNeeded(t[0][0]) + AfterFirstCell(t)
  {
    Regroup(QuotedIfNeeded(t[0][0]), MoreCells(t[0]), MoreRows(t));
  }

  lemma AfterFirstCellStart(t: Table)
    requires t != [] && t[0] != []
    ensures AfterFirstCell(t) != "" ==> AfterFirstCell(t)[0] != BOM
  {
  }

  lemma TextStartsWithBom(t: Table)
    requires forall i :: 0 <= i < |t| ==> t[i] != []
    ensures TableText(t) != "" && TableText(t)[0] == BOM <==> BomDropped(t) != t
  {
    if t != [] {
      FirstCellFirst(t);
      var c := t[0][0];
      if c != "" && c[0] == BOM && !NeedsQuoting(c) {
        assert BomDropped(t)[0][0] == c[1..];
        assert |c[1..]| != |c|;
      } else if c == "" {
        AfterFirstCellStart(t);
      }
    }
  }

  lemma BomText(t: Table)
    requires forall i :: 0 <= i < |t| ==> t[i] != []
    ensures TableText(BomDropped(t)) == WithoutBom(TableText(t))
  {
    TextStartsWithBom(t);
    if BomDropped(t) != t {
      var c := t[0][0];
      PlainTail(c);
      FirstCellFirst(t);
      FirstCellFirst(BomDropped(t));
      assert BomDropped(t)[0][1..] == t[0][1..] && BomDropped(t)[1..] == t[1..];
      assert AfterFirstCell(BomDropped(t)) == AfterFirstCell(t);
      TailOfConcat(c, AfterFirstCell(t));
    }
  }

  /** Exactly what reading back a printed table gives, for every table. */
  lemma ReadBack(t: Table)
    ensures Parsed(WithoutBom(TableText(t)), START, ',') == Trimmed(BomDropped(Filled(t)))
  {
    FilledText(t);
    BomText(Filled(t));
    TableRead(BomDropped(Filled(t)), []);
    assert [] + Trimmed(BomDropped(Filled(t))) == Trimmed(BomDropped(Filled(t)));
  }

  ghost predicate NoEmptyRow(t: Table) {
    forall i :: 0 <= i < |t| ==> t[i] != []
  }

  /** Every row has a cell, the last row is not one empty cell, and the text does not start with a BOM. */
  ghost predicate Printable(t: Table) {
    && NoEmptyRow(t) && (t != [] ==> t[|t| - 1] != [""])
    && (Printed(t) != "" ==> Printed(t)[0] != BOM)
  }

  lemma NeutralizedNotEmptied(s: string)
    ensures Neutralized(s) == "" <==> s == ""
  {
  }

  lemma NeutralizedEnds(t: Table)
    ensures forall i :: 0 <= i < |t| ==> (NeutralizedTable(t)[i] == [] <==> t[i] == [])
    ensures t != [] ==> (NeutralizedTable(t)[|t| - 1] == [""] <==> t[|t| - 1] == [""])
  {
    if t != [] && t[|t| - 1] != [] {
      NeutralizedNotEmptied(t[|t| - 1][0]);
      assert NeutralizedTable(t)[|t| - 1][0] == Neutralized(t[|t| - 1][0]);
    }
  }

  lemma BomDroppedEnds(t: Table)
    requires forall i :: 0 <= i < |t| ==> t[i] != []
    ensures Trimmed(BomDropped(t)) == t <==> BomDropped(t) == t && Trimmed(t) == t
  {
    assert |BomDropped(t)| == |t|;
  }

  lemma FilledRowsDiffer(n: Table, i: nat)
    requires i < |n| && n[i] == []
    ensures Trimmed(BomDropped(Filled(n))) != n
  {
    var f := Filled(n);
    assert f[i] == [""];
    assert BomDropped(f)[i] != [];
  }

  /** When every row has a cell, only a leading BOM or a last row of one empty cell is lost. */
  lemma FilledTableReadsBack(n: Table)
    requires NoEmptyRow(n)
    ensures Trimmed(BomDropped(Filled(n))) == n <==>
            (n != [] ==> n[|n| - 1] != [""]) && (TableText(n) != "" ==> TableText(n)[0] != BOM)
  {
    assert Filled(n) == n;
    TextStartsWithBom(n);
    BomDroppedEnds(n);
  }

  /** Parsing returns exactly the neutralized cells if and only if the table is printable. */
  lemma ParsingUndoesPrinting(t: Table)
    ensures Parsed(WithoutBom(Printed(t)), START, ',') == NeutralizedTable(t) <==> Printable(t)
  {
    var n := NeutralizedTable(t);
    ReadBack(n);
    NeutralizedEnds(t);
    assert NoEmptyRow(n) <==> NoEmptyRow(t);
    if NoEmptyRow(t) {
      FilledTableReadsBack(n);
    } else {
      var i :| 0 <= i < |t| && t[i] == [];
      FilledRowsDiffer(n, i);
    }
  }

  /** A header and rows of at least two cells, none starting with a BOM, always read back. */
  lemma ReportReadsBack(t: Table)
    requires t != [] && (forall i :: 0 <= i < |t| ==> |t[i]| >= 2) && t[0][0] != "" && t[0][0][0] != BOM
    ensures Parsed(WithoutBom(Printed(t)), START, ',') == NeutralizedTable(t)
  {
    var n := NeutralizedTable(t);
    FirstCellFirst(n);
    assert n[0][0] == Neutralized(t[0][0]);
    ParsingUndoesPrinting(t);
  }
}
