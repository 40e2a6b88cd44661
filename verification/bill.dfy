/** A bill (one expense record): five text cells, date, name, details, cost and
    type, each bound to a fixed CSV column. */
module Bills {

  /** The five cells; `Bill.java` calls the last one `type`. */
  datatype Field = Date | Name | Details | Cost | Type

  /** The CSV column each cell is bound to. */
  function Position(f: Field): (p: nat)
    ensures p < 5
  {
    match f
    case Date => 0
    case Name => 1
    case Details => 2
    case Cost => 3
    case Type => 4
  }

  /** The cell bound to a column. */
  function FieldAt(p: nat): (f: Field)
    requires p < 5
    ensures Position(f) == p
  {
    if p == 0 then Date else if p == 1 then Name else if p == 2 then Details
    else if p == 3 then Cost else Type
  }

  /** No two cells share a column: the binding is one-to-one onto 0..4. */
  lemma PositionsAreAColumnLayout()
    ensures forall f :: FieldAt(Position(f)) == f
    ensures forall f, g :: Position(f) == Position(g) ==> f == g
  {
    forall f ensures FieldAt(Position(f)) == f {
      match f
      case Date =>
      case Name =>
      case Details =>
      case Cost =>
      case Type =>
    }
  }

  /** The contents of a bill at one moment. */
  datatype BillRecord = BillRecord(date: string, name: string, details: string, cost: string, category: string) {

    function Get(f: Field): string {
      match f
      case Date => date
      case Name => name
      case Details => details
      case Cost => cost
      case Type => category
    }

    /** This record with one cell replaced. */
    function With(f: Field, v: string): (r: BillRecord)
      ensures r.Get(f) == v
      ensures forall g :: g != f ==> r.Get(g) == Get(g)
    {
      match f
      case Date => this.(date := v)
      case Name => this.(name := v)
      case Details => this.(details := v)
      case Cost => this.(cost := v)
      case Type => this.(category := v)
    }

    /** The CSV row of this record: each cell in its column. */
    function ToRow(): (row: seq<string>)
      ensures |row| == 5
      ensures forall f :: row[Position(f)] == Get(f)
    {
      [date, name, details, cost, category]
    }
  }

  /** The record a positional row describes; columns past 4 are ignored. */
  function OfRow(row: seq<string>): (r: BillRecord)
    requires |row| >= 5
    ensures forall f :: r.Get(f) == row[Position(f)]
  {
    BillRecord(row[0], row[1], row[2], row[3], row[4])
  }

  lemma RowRoundTrip(r: BillRecord)
    ensures OfRow(r.ToRow()) == r
  {
  }

  /** A row of exactly five columns is the row of the record it describes. */
  lemma RecordRoundTrip(row: seq<string>)
    requires |row| == 5
    ensures OfRow(row).ToRow() == row
  {
  }

  /** A bill whose cells are updated in place (the Java class's observable
      string properties). The getters are the field reads. */
  class Bill {
    var date: string
    var name: string
    var details: string
    var cost: string
    var category: string

    function Snap(): BillRecord
      reads this
    {
      BillRecord(date, name, details, cost, category)
    }

    constructor (date: string, name: string, details: string, cost: string, category: string)
      ensures Snap() == BillRecord(date, name, details, cost, category)
    {
      this.date := date;
      this.name := name;
      this.details := details;
      this.cost := cost;
      this.category := category;
    }

    /** The array constructor: column i of the row goes to the cell at position i;
        a row shorter than five is an index fault in `Bill.java`. */
    constructor FromArray(strings: seq<string>)
      requires |strings| >= 5
      ensures Snap() == OfRow(strings)
    {
      date := strings[0];
      name := strings[1];
      details := strings[2];
      cost := strings[3];
      category := strings[4];
    }

    /** `xxxProperty().set(v)`: one cell changes, the other four stay. */
    method Set(f: Field, v: string)
      modifies this
      ensures Snap() == old(Snap()).With(f, v)
    {
      match f
      case Date => date := v;
      case Name => name := v;
      case Details => details := v;
      case Cost => cost := v;
      case Type => category := v;
    }
  }

  /** The contents of a list of bills, read at one moment. */
  function Snapshots(bills: seq<Bill>): (rs: seq<BillRecord>)
    reads set b | b in bills
    ensures |rs| == |bills|
    ensures forall i :: 0 <= i < |bills| ==> rs[i] == bills[i].Snap()
  {
    if bills == [] then [] else Snapshots(bills[..|bills| - 1]) + [bills[|bills| - 1].Snap()]
  }

  lemma SnapshotsAppend(bills: seq<Bill>, b: Bill)
    ensures Snapshots(bills + [b]) == Snapshots(bills) + [b.Snap()]
  {
    assert (bills + [b])[..|bills|] == bills;
  }

  /** Reading one more bill of a list extends the snapshot by that bill. */
  lemma SnapshotsPrefixStep(bills: seq<Bill>, i: nat)
    requires i < |bills|
    ensures Snapshots(bills[..i + 1]) == Snapshots(bills[..i]) + [bills[i].Snap()]
  {
    assert bills[..i + 1] == bills[..i] + [bills[i]];
    SnapshotsAppend(bills[..i], bills[i]);
  }

  /** Dropping the i-th bill drops the i-th snapshot. */
  lemma SnapshotsRemove(bills: seq<Bill>, i: nat)
    requires i < |bills|
    ensures Snapshots(bills[..i] + bills[i + 1..]) == Snapshots(bills)[..i] + Snapshots(bills)[i + 1..]
  {
    var rest := bills[..i] + bills[i + 1..];
    var rs := Snapshots(bills);
    forall k | 0 <= k < |rest|
      ensures Snapshots(rest)[k] == (rs[..i] + rs[i + 1..])[k]
    {
      if k < i {
        assert rest[k] == bills[k];
      } else {
        assert rest[k] == bills[k + 1];
      }
    }
  }

  lemma AppendKeepsPrefix(bills: seq<Bill>, b: Bill)
    ensures |bills + [b]| == |bills| + 1 && (bills + [b])[..|bills|] == bills && (bills + [b])[|bills|] == b
  {
    assert (bills + [b])[..|bills|] == bills;
  }
}
