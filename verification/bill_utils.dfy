/** CSV import and export of the bill list. The file's contents are passed as
    text; opening, reading and writing the file are not modelled. */
module BillUtils {
  import opened Wrappers
  import opened Bills
  import Csv

  /** The header heuristic: a row is skipped when its first column is exactly
      "NAME" (case-sensitive). */
  predicate IsSkipped(row: seq<string>) {
    |row| > 0 && row[0] == "NAME"
  }

  /** The positions of the rows that are not skipped: increasing, and every
      such position is among them. */
  function KeptPositions(rows: seq<seq<string>>): (ps: seq<nat>)
    ensures |ps| <= |rows|
    ensures forall i :: 0 <= i < |ps| ==> ps[i] < |rows| && !IsSkipped(rows[ps[i]])
    ensures forall i, j :: 0 <= i < j < |ps| ==> ps[i] < ps[j]
    ensures forall j :: 0 <= j < |rows| && !IsSkipped(rows[j]) ==> j in ps
  {
    if rows == [] then []
    else
      var init := rows[..|rows| - 1];
      assert forall j :: 0 <= j < |init| ==> init[j] == rows[j];
      var prefix := KeptPositions(init);
      if IsSkipped(rows[|rows| - 1]) then prefix else prefix + [|rows| - 1]
  }

  /** The rows that become bills: every row not headed "NAME", in file order.
      The i-th kept row is the row at the i-th kept position. */
  function KeptRows(rows: seq<seq<string>>): (kept: seq<seq<string>>)
    ensures |kept| == |KeptPositions(rows)| <= |rows|
    ensures forall i :: 0 <= i < |kept| ==> kept[i] == rows[KeptPositions(rows)[i]] && !IsSkipped(kept[i])
  {
    if rows == [] then []
    else
      var init := rows[..|rows| - 1];
      assert forall j :: 0 <= j < |init| ==> init[j] == rows[j];
      var prefix := KeptRows(init);
      var last := rows[|rows| - 1];
      if IsSkipped(last) then prefix else prefix + [last]
  }

  /** The import loop over decoded rows. None stands for an exception thrown in
      the loop: a row without columns (reading column 0) or a kept row with fewer
      than five columns (the array constructor). */
  function ImportRows(rows: seq<seq<string>>): (r: Option<seq<BillRecord>>)
    ensures r.Some? ==> |r.value| <= |rows|
  {
    if rows == [] then Some([])
    else
      match ImportRows(rows[..|rows| - 1])
      case None => None
      case Some(bills) =>
        var row := rows[|rows| - 1];
        if |row| == 0 then None
        else if row[0] == "NAME" then Some(bills)
        else if |row| < 5 then None
        else Some(bills + [OfRow(row)])
  }

  /** Every row is usable: it has a column 0, and a kept row has all five. */
  predicate Importable(rows: seq<seq<string>>) {
    forall i :: 0 <= i < |rows| ==> |rows[i]| > 0 && (IsSkipped(rows[i]) || |rows[i]| >= 5)
  }

  lemma KeptRowsAreLong(rows: seq<seq<string>>)
    requires Importable(rows)
    ensures forall i :: 0 <= i < |KeptRows(rows)| ==> |KeptRows(rows)[i]| >= 5
  {
  }

  lemma KeptRowsStep(rows: seq<seq<string>>)
    requires rows != []
    ensures KeptRows(rows) == if IsSkipped(rows[|rows| - 1]) then KeptRows(rows[..|rows| - 1])
                              else KeptRows(rows[..|rows| - 1]) + [rows[|rows| - 1]]
  {
  }

  /** The i-th imported bill comes from the i-th kept row; the import fails
      exactly when some row is unusable. */
  lemma {:induction false} ImportRowsSpec(rows: seq<seq<string>>)
    ensures ImportRows(rows).Some? <==> Importable(rows)
    ensures ImportRows(rows).Some? ==>
      var kept := KeptRows(rows);
      |ImportRows(rows).value| == |kept| &&
      forall i :: 0 <= i < |kept| ==> |kept[i]| >= 5 && ImportRows(rows).value[i] == OfRow(kept[i])
  {
    if rows != [] {
      var init := rows[..|rows| - 1];
      var last := rows[|rows| - 1];
      ImportRowsSpec(init);
      KeptRowsStep(rows);
      assert forall i :: 0 <= i < |init| ==> init[i] == rows[i];
      if Importable(rows) {
        assert Importable(init);
        KeptRowsAreLong(rows);
      }
    }
  }

  /** What `importFromCSV` returns for a file's text: the bills of the kept
      rows, or the empty list when reading or any row fails. */
  function ImportText(text: string): seq<BillRecord> {
    match Csv.Decode(text)
    case None => []
    case Some(rows) => ImportRows(rows).GetOr([])
  }

  lemma ImportEmptyFile()
    ensures ImportText("") == []
  {
  }

  lemma ImportRowsStep(rows: seq<seq<string>>, init: seq<seq<string>>)
    requires rows != [] && init == rows[..|rows| - 1]
    ensures ImportRows(rows) == match ImportRows(init)
      case None => None
      case Some(bills) =>
        var row := rows[|rows| - 1];
        if |row| == 0 then None
        else if row[0] == "NAME" then Some(bills)
        else if |row| < 5 then None
        else Some(bills + [OfRow(row)])
  {
  }

  /** Reading one more row of a file extends the import by that row. */
  lemma ImportRowsPrefix(rows: seq<seq<string>>, i: nat)
    requires i < |rows|
    ensures ImportRows(rows[..i + 1]) == match ImportRows(rows[..i])
      case None => None
      case Some(bills) =>
        var row := rows[i];
        if |row| == 0 then None
        else if row[0] == "NAME" then Some(bills)
        else if |row| < 5 then None
        else Some(bills + [OfRow(row)])
  {
    assert rows[..i + 1][..i] == rows[..i];
    ImportRowsStep(rows[..i + 1], rows[..i]);
  }

  /** A file whose first line is a "NAME" header imports only its data rows. */
  lemma ImportSkipsNameHeader(header: seq<string>, row: seq<string>)
    requires |header| > 0 && header[0] == "NAME"
    requires |row| >= 5 && row[0] != "NAME"
    ensures ImportRows([header, row]) == Some([OfRow(row)])
  {
    ImportRowsStep([header], []);
    assert ImportRows([header]) == Some([]);
    ImportRowsStep([header, row], [header]);
    assert [] + [OfRow(row)] == [OfRow(row)];
  }

  /** Any other first column, "DATE" included, makes the header an ordinary row. */
  lemma ImportKeepsOtherHeader(header: seq<string>, row: seq<string>)
    requires |header| >= 5 && header[0] != "NAME"
    requires |row| >= 5 && row[0] != "NAME"
    ensures ImportRows([header, row]) == Some([OfRow(header), OfRow(row)])
  {
    ImportRowsStep([header], []);
    assert [] + [OfRow(header)] == [OfRow(header)];
    assert ImportRows([header]) == Some([OfRow(header)]);
    ImportRowsStep([header, row], [header]);
    assert [OfRow(header)] + [OfRow(row)] == [OfRow(header), OfRow(row)];
  }

  /** One failing row discards the bills already read, wherever it is. */
  lemma {:induction false} ImportAllOrNothing(rows: seq<seq<string>>, k: nat)
    requires k < |rows|
    requires |rows[k]| == 0 || (rows[k][0] != "NAME" && |rows[k]| < 5)
    ensures ImportRows(rows) == None
  {
    ImportRowsSpec(rows);
  }

  /** The export rows: each bill's cells in column order. */
  function ExportRows(bills: seq<BillRecord>): (rows: seq<seq<string>>)
    ensures |rows| == |bills|
    ensures forall i :: 0 <= i < |bills| ==> rows[i] == bills[i].ToRow()
  {
    if bills == [] then [] else ExportRows(bills[..|bills| - 1]) + [bills[|bills| - 1].ToRow()]
  }

  /** What `exportToCSV` writes: one quoted record per bill, in list order. */
  function ExportText(bills: seq<BillRecord>): string {
    Csv.Encode(ExportRows(bills))
  }

  /** Importing what export wrote gives back the same bills in the same order,
      unless a date cell is "NAME" (that row would be taken for a header). */
  lemma ExportImportRoundTrip(bills: seq<BillRecord>)
    requires forall i :: 0 <= i < |bills| ==> bills[i].date != "NAME"
    ensures ImportText(ExportText(bills)) == bills
  {
    var rows := ExportRows(bills);
    ExportedRowsImportable(bills);
    Csv.DecodeEncode(rows);
    ImportRowsSpec(rows);
    var imported := ImportRows(rows).value;
    forall i | 0 <= i < |bills|
      ensures imported[i] == bills[i]
    {
      RowRoundTrip(bills[i]);
    }
  }

  /** The export's rows all have five columns, and none is taken for a
      header when no date is "NAME". */
  lemma ExportedRowsImportable(bills: seq<BillRecord>)
    requires forall i :: 0 <= i < |bills| ==> bills[i].date != "NAME"
    ensures var rows := ExportRows(bills);
      Importable(rows) && |KeptRows(rows)| == |rows|
      && (forall i :: 0 <= i < |rows| ==> KeptRows(rows)[i] == rows[i])
      && forall i :: 0 <= i < |rows| ==> rows[i] != []
  {
    var rows := ExportRows(bills);
    forall i | 0 <= i < |rows|
      ensures |rows[i]| == 5 && !IsSkipped(rows[i])
    {
      assert rows[i][Position(Date)] == bills[i].Get(Date);
    }
    KeptPositionsAll(rows);
  }

  /** When no row is a header, every position is kept. */
  lemma {:induction false} KeptPositionsAll(rows: seq<seq<string>>)
    requires forall i :: 0 <= i < |rows| ==> !IsSkipped(rows[i])
    ensures |KeptPositions(rows)| == |rows|
    ensures forall i :: 0 <= i < |rows| ==> KeptPositions(rows)[i] == i
  {
    if rows != [] {
      var init := rows[..|rows| - 1];
      assert forall i :: 0 <= i < |init| ==> init[i] == rows[i];
      KeptPositionsAll(init);
    }
  }

  /** When no row is a header, every row is kept. */
  lemma KeptAll(rows: seq<seq<string>>)
    requires forall i :: 0 <= i < |rows| ==> !IsSkipped(rows[i])
    ensures KeptRows(rows) == rows
  {
    KeptPositionsAll(rows);
  }

  /** The header round trip fails: a bill dated "NAME" is lost on re-import. */
  lemma NameDateIsLost(b: BillRecord)
    requires b.date == "NAME"
    ensures ImportText(ExportText([b])) == []
  {
    var rows := ExportRows([b]);
    Csv.DecodeEncode(rows);
    assert rows == [b.ToRow()];
    assert rows[..0] == [];
    assert ImportRows(rows) == Some([]);
  }

  /** With no line break in any cell, the export has one line per bill. */
  lemma ExportOneLinePerBill(bills: seq<BillRecord>)
    requires forall i, f :: 0 <= i < |bills| ==> Csv.NoLineBreak(bills[i].Get(f))
    ensures Csv.LineBreaks(ExportText(bills)) == |bills|
  {
    var rows := ExportRows(bills);
    forall i, j | 0 <= i < |rows| && 0 <= j < |rows[i]| ensures Csv.NoLineBreak(rows[i][j]) {
      PositionsAreAColumnLayout();
      assert rows[i][Position(FieldAt(j))] == bills[i].Get(FieldAt(j));
    }
    Csv.EncodeOneLinePerRecord(rows);
  }

  lemma ExportTextAppend(bills: seq<BillRecord>, b: BillRecord)
    ensures ExportText(bills + [b]) == ExportText(bills) + Csv.EncodeRecord(b.ToRow())
  {
    assert (bills + [b])[..|bills|] == bills;
    assert ExportRows(bills + [b]) == ExportRows(bills) + [b.ToRow()];
    Csv.EncodeAppend(ExportRows(bills), [b.ToRow()]);
    assert Csv.Encode([b.ToRow()]) == Csv.EncodeRecord(b.ToRow()) + Csv.Encode([]);
  }

  /** `exportToCSV`: the bills are written one after another. */
  method ExportToCsv(bills: seq<Bill>) returns (text: string)
    ensures text == ExportText(Snapshots(bills))
  {
    text := "";
    var i := 0;
    while i < |bills|
      invariant 0 <= i <= |bills|
      invariant text == ExportText(Snapshots(bills[..i]))
    {
      var row := [bills[i].date, bills[i].name, bills[i].details, bills[i].cost, bills[i].category];
      assert bills[..i + 1] == bills[..i] + [bills[i]];
      SnapshotsAppend(bills[..i], bills[i]);
      ExportTextAppend(Snapshots(bills[..i]), bills[i].Snap());
      text := text + Csv.EncodeRecord(row);
      i := i + 1;
    }
    assert bills[..i] == bills;
  }

  /** One kept row becomes a new bill at the end of the list. */
  method AppendNewBill(bills: seq<Bill>, strings: seq<string>) returns (more: seq<Bill>)
    requires |strings| >= 5
    ensures Snapshots(more) == Snapshots(bills) + [OfRow(strings)]
    ensures forall b :: b in more ==> b in bills || fresh(b)
  {
    var bill := new Bill.FromArray(strings);
    SnapshotsAppend(bills, bill);
    more := bills + [bill];
  }

  /** `importFromCSV`: the rows are read in order, "NAME" rows are skipped, each
      other row becomes a new bill; any failure yields the empty list. */
  method ImportFromCsv(text: string) returns (bills: seq<Bill>)
    ensures Snapshots(bills) == ImportText(text)
    ensures forall b :: b in bills ==> fresh(b)
  {
    var decoded := Csv.Decode(text);
    if decoded.None? {
      return [];
    }
    var rows := decoded.value;
    var res: seq<Bill> := [];
    var i := 0;
    while i < |rows|
      invariant 0 <= i <= |rows|
      invariant ImportRows(rows[..i]).Some?
      invariant Snapshots(res) == ImportRows(rows[..i]).value
      invariant forall b :: b in res ==> fresh(b)
    {
      var strings := rows[i];
      ImportRowsPrefix(rows, i);
      if |strings| == 0 || (strings[0] != "NAME" && |strings| < 5) {
        ImportAllOrNothing(rows, i);
        return [];
      }
      if strings[0] != "NAME" {
        res := AppendNewBill(res, strings);
      }
      i := i + 1;
    }
    assert rows[..i] == rows;
    bills := res;
  }
}
