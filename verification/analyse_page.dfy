/** The totals behind the analysis page's two charts: the bar chart adds up the
    costs per day (the date text before its first space), the pie chart per
    type (the exact type text). Both read a cost by removing " RMB" and parsing
    the rest; a cost or a date they cannot read ends the chart update. */
module AnalysePage {
  import opened Wrappers
  import opened Strings
  import opened Decimal
  import opened Bills
  import Commons

  /** Which chart: by date or by type. */
  datatype Grouping = ByDate | ByCategory

  /** `date.split(" ")[0]`: the text before the first space. A non-empty date
      made of spaces only splits into no piece at all, and reading piece 0
      fails. */
  function DateKey(date: string): (k: Option<string>)
    ensures k.None? <==> date != [] && forall i :: 0 <= i < |date| ==> date[i] == ' '
    ensures k.Some? ==> |k.value| <= |date| && k.value == date[..|k.value|] && ' ' !in k.value
    ensures k.Some? && |k.value| < |date| ==> date[|k.value|] == ' '
  {
    var i := IndexOf(date, ' ');
    if date != [] && forall j :: 0 <= j < |date| ==> date[j] == ' ' then None
    else
      assert forall j :: 0 <= j < i ==> date[..i][j] == date[j];
      Some(date[..i])
  }

  /** A date as the dialogs save it, day and time apart, is grouped by its day. */
  lemma DateKeyOfDayAndTime(day: string, time: string)
    requires day != [] && ' ' !in day
    ensures DateKey(day + " " + time) == Some(day)
  {
    var d := day + " " + time;
    assert d[0] == day[0];
    assert d[|day|] == ' ';
    assert d[..|day|] == day;
    assert forall j :: 0 <= j < |day| ==> d[j] == day[j];
  }

  /** A date without a space is its own key. */
  lemma DateKeyWithoutSpace(date: string)
    requires ' ' !in date
    ensures DateKey(date) == Some(date)
  {
    if date != [] {
      assert date[0] != ' ';
    }
    assert date[..|date|] == date;
  }

  /** `Double.parseDouble(cost.replace(" RMB", ""))`. */
  function ChartCost(cost: string): Option<real> {
    ParseDouble(Replace(cost, " RMB", ""))
  }

  /** A cost without any space has no " RMB" to remove and is read as it
      stands. */
  lemma ChartCostWithoutSpace(cost: string)
    requires forall i :: 0 <= i < |cost| ==> cost[i] != ' '
    ensures ChartCost(cost) == ParseDouble(cost)
  {
  }

  /** A cost as add and edit save it, a literal followed by " RMB", reads as
      the literal. */
  lemma ChartCostOfSaved(lit: string)
    requires ParseLiteral(lit).Some?
    ensures ChartCost(lit + " RMB") == ParseLiteral(lit)
  {
    LiteralShape(lit);
    ReplaceSkipsPrefix(lit, " RMB", " RMB", "");
    ReplaceWhole(" RMB", "");
    assert lit + "" == lit;
    ParseDoubleOfLiteral(lit);
  }

  /** The key of a bill in a chart. Only a date can fail to give a key; a type
      always does. */
  function KeyOf(r: BillRecord, g: Grouping): (k: Option<string>)
    ensures k.None? ==> g == ByDate
  {
    match g
    case ByDate => DateKey(r.date)
    case ByCategory => Some(r.category)
  }

  /** What one pass of the loop reads from a bill: its key, then its cost;
      None when either read throws. */
  function Entry(r: BillRecord, g: Grouping): Option<(string, real)> {
    match KeyOf(r, g)
    case None => None
    case Some(k) =>
      match ChartCost(r.cost)
      case None => None
      case Some(c) => Some((k, c))
  }

  /** The entries of a list of bills, in list order. */
  function Entries(bills: seq<BillRecord>, g: Grouping): (es: seq<Option<(string, real)>>)
    ensures |es| == |bills|
  {
    seq(|bills|, i requires 0 <= i < |bills| => Entry(bills[i], g))
  }

  lemma EntriesAppend(rs: seq<BillRecord>, r: BillRecord, g: Grouping)
    ensures Entries(rs + [r], g) == Entries(rs, g) + [Entry(r, g)]
  {
    assert forall i :: 0 <= i < |rs| ==> (rs + [r])[i] == rs[i];
  }

  lemma EntriesLast(bills: seq<BillRecord>, g: Grouping)
    requires bills != []
    ensures Entries(bills, g) == Entries(bills[..|bills| - 1], g) + [Entry(bills[|bills| - 1], g)]
  {
    assert bills == bills[..|bills| - 1] + [bills[|bills| - 1]];
    EntriesAppend(bills[..|bills| - 1], bills[|bills| - 1], g);
  }

  /** The loop that fills the chart's map: the cost of each entry is added to
      the value stored under its key (0.0 when the key is new). None stands
      for the exception thrown by the first entry that cannot be read. */
  function Aggregate(es: seq<Option<(string, real)>>): Option<map<string, real>> {
    if es == [] then Some(map[])
    else
      match Aggregate(es[..|es| - 1])
      case None => None
      case Some(m) =>
        match es[|es| - 1]
        case None => None
        case Some((k, c)) => Some(m[k := (if k in m then m[k] else 0.0) + c])
  }

  lemma AggregateStep(es: seq<Option<(string, real)>>, e: Option<(string, real)>)
    ensures Aggregate(es + [e]) ==
      match Aggregate(es)
      case None => None
      case Some(m) =>
        match e
        case None => None
        case Some((k, c)) => Some(m[k := (if k in m then m[k] else 0.0) + c])
  {
    assert (es + [e])[..|es|] == es;
  }

  /** One more readable entry adds its cost under its key. */
  lemma AggregatePut(es: seq<Option<(string, real)>>, m: map<string, real>, k: string, c: real)
    requires Aggregate(es) == Some(m)
    ensures Aggregate(es + [Some((k, c))]) == Some(m[k := (if k in m then m[k] else 0.0) + c])
  {
    AggregateStep(es, Some((k, c)));
  }

  /** The first i + 1 entries: one more readable entry after the first i. */
  lemma AggregatePrefix(es: seq<Option<(string, real)>>, i: nat, m: map<string, real>, k: string, c: real)
    requires i < |es| && Aggregate(es[..i]) == Some(m) && es[i] == Some((k, c))
    ensures Aggregate(es[..i + 1]) == Some(m[k := (if k in m then m[k] else 0.0) + c])
  {
    assert es[..i + 1] == es[..i] + [Some((k, c))];
    AggregatePut(es[..i], m, k, c);
  }

  /** What a chart shows for a list of bills. */
  function ChartData(bills: seq<BillRecord>, g: Grouping): Option<map<string, real>> {
    Aggregate(Entries(bills, g))
  }

  predicate Readable(es: seq<Option<(string, real)>>) {
    forall i :: 0 <= i < |es| ==> es[i].Some?
  }

  /** The keys that occur among the entries. */
  function Keys(es: seq<Option<(string, real)>>): set<string> {
    if es == [] then {}
    else
      Keys(es[..|es| - 1]) +
        match es[|es| - 1]
        case Some((k, _)) => {k}
        case None => {}
  }

  /** The sum of the costs of the entries whose key is k. */
  function GroupSum(es: seq<Option<(string, real)>>, k: string): real {
    if es == [] then 0.0
    else
      GroupSum(es[..|es| - 1], k) +
        match es[|es| - 1]
        case Some((j, c)) => if j == k then c else 0.0
        case None => 0.0
  }

  /** The sum of the costs of all entries. */
  function EntriesTotal(es: seq<Option<(string, real)>>): real {
    if es == [] then 0.0
    else
      EntriesTotal(es[..|es| - 1]) +
        match es[|es| - 1]
        case Some((_, c)) => c
        case None => 0.0
  }

  /** The map is built exactly when every entry can be read. */
  lemma {:induction false} AggregateDefined(es: seq<Option<(string, real)>>)
    ensures Aggregate(es).Some? <==> Readable(es)
  {
    if es != [] {
      var init := es[..|es| - 1];
      AggregateDefined(init);
      assert forall i :: 0 <= i < |init| ==> init[i] == es[i];
    }
  }

  /** One unreadable entry makes the whole map fail, wherever it is. */
  lemma AggregateFailsAt(es: seq<Option<(string, real)>>, i: nat)
    requires i < |es| && es[i].None?
    ensures Aggregate(es).None?
  {
    AggregateDefined(es);
  }

  /** A prefix whose map fails makes the whole map fail. */
  lemma AggregatePrefixFails(es: seq<Option<(string, real)>>, j: nat)
    requires j <= |es| && Aggregate(es[..j]).None?
    ensures Aggregate(es).None?
  {
    AggregateDefined(es[..j]);
    AggregateDefined(es);
    assert forall k :: 0 <= k < j ==> es[..j][k] == es[k];
  }

  /** A key that does not occur has nothing to add up. */
  lemma {:induction false} GroupSumOutside(es: seq<Option<(string, real)>>, k: string)
    requires k !in Keys(es)
    ensures GroupSum(es, k) == 0.0
  {
    if es != [] {
      GroupSumOutside(es[..|es| - 1], k);
    }
  }

  /** Each group of the map holds the sum of exactly the entries with that
      key, and there is a group for every key that occurs and for no other. */
  lemma {:induction false} AggregateGroups(es: seq<Option<(string, real)>>)
    requires Aggregate(es).Some?
    ensures Aggregate(es).value.Keys == Keys(es)
    ensures forall k :: k in Aggregate(es).value ==> Aggregate(es).value[k] == GroupSum(es, k)
  {
    if es != [] {
      var init := es[..|es| - 1];
      AggregateGroups(init);
      var m := Aggregate(init).value;
      var k := es[|es| - 1].value.0;
      if k !in m {
        GroupSumOutside(init, k);
      }
    }
  }

  /** The groups of a list of keys, added up. */
  function SumGroups(es: seq<Option<(string, real)>>, ks: seq<string>): real {
    if ks == [] then 0.0 else GroupSum(es, ks[0]) + SumGroups(es, ks[1..])
  }

  /** The cost of entry e, counted once for each key of ks equal to its key. */
  function SumPick(ks: seq<string>, e: Option<(string, real)>): real {
    if ks == [] then 0.0
    else
      (match e
       case Some((k, c)) => if k == ks[0] then c else 0.0
       case None => 0.0) + SumPick(ks[1..], e)
  }

  predicate Distinct(ks: seq<string>) {
    forall i, j :: 0 <= i < j < |ks| ==> ks[i] != ks[j]
  }

  lemma {:induction false} SumPickOnce(ks: seq<string>, k: string, c: real)
    requires Distinct(ks)
    ensures SumPick(ks, Some((k, c))) == if k in ks then c else 0.0
  {
    if ks != [] {
      SumPickOnce(ks[1..], k, c);
      if ks[0] == k {
        assert k !in ks[1..] by {
          forall j | 0 <= j < |ks[1..]| ensures ks[1..][j] != k {
            assert ks[1..][j] == ks[j + 1];
          }
        }
      }
    }
  }

  lemma {:induction false} SumGroupsStep(es: seq<Option<(string, real)>>, ks: seq<string>)
    requires es != []
    ensures SumGroups(es, ks) == SumGroups(es[..|es| - 1], ks) + SumPick(ks, es[|es| - 1])
  {
    if ks != [] {
      SumGroupsStep(es, ks[1..]);
    }
  }

  lemma {:induction false} ZeroGroups(ks: seq<string>)
    ensures SumGroups([], ks) == 0.0
  {
    if ks != [] {
      ZeroGroups(ks[1..]);
    }
  }

  /** Conservation: over any list of distinct keys that covers the keys that
      occur, the groups add up to the sum of all costs. */
  lemma {:induction false} Conservation(es: seq<Option<(string, real)>>, ks: seq<string>)
    requires Readable(es)
    requires Distinct(ks) && forall k :: k in Keys(es) ==> k in ks
    ensures SumGroups(es, ks) == EntriesTotal(es)
  {
    if es == [] {
      ZeroGroups(ks);
    } else {
      var init := es[..|es| - 1];
      assert Readable(init) by {
        assert forall i :: 0 <= i < |init| ==> init[i] == es[i];
      }
      Conservation(init, ks);
      SumGroupsStep(es, ks);
      var e := es[|es| - 1];
      assert e.value.0 in Keys(es);
      SumPickOnce(ks, e.value.0, e.value.1);
    }
  }

  /** The chart can read every bill: its key and its cost. */
  predicate Chartable(bills: seq<BillRecord>, g: Grouping) {
    forall i :: 0 <= i < |bills| ==> Entry(bills[i], g).Some?
  }

  /** A chart is drawn exactly when it can read every bill. */
  lemma ChartDataDefined(bills: seq<BillRecord>, g: Grouping)
    ensures ChartData(bills, g).Some? <==> Chartable(bills, g)
  {
    var es := Entries(bills, g);
    AggregateDefined(es);
    if Chartable(bills, g) {
      assert Readable(es) by {
        forall i | 0 <= i < |es| ensures es[i].Some? {
          assert Entry(bills[i], g).Some?;
        }
      }
    }
    if Readable(es) {
      forall i | 0 <= i < |bills| ensures Entry(bills[i], g).Some? {
        assert es[i].Some?;
      }
    }
  }

  /** A bill the chart cannot read makes the whole update fail, wherever it is. */
  lemma ChartFailsOn(bills: seq<BillRecord>, g: Grouping, i: nat)
    requires i < |bills| && Entry(bills[i], g).None?
    ensures ChartData(bills, g).None?
  {
    AggregateFailsAt(Entries(bills, g), i);
  }

  /** The cost text add and edit save: a literal followed by " RMB". */
  predicate SavedCost(cost: string) {
    |cost| >= 4 && cost[|cost| - 4..] == " RMB" && ParseLiteral(cost[..|cost| - 4]).Some?
  }

  /** A saved cost is read alike by the charts and by the total. */
  lemma SavedCostAmounts(cost: string)
    requires SavedCost(cost)
    ensures ChartCost(cost).Some?
    ensures Commons.Contribution(cost) == ChartCost(cost).value
  {
    var lit := cost[..|cost| - 4];
    assert cost == lit + " RMB";
    ChartCostOfSaved(lit);
    Commons.CanonicalCostAmount(lit);
  }

  lemma SavedEntry(r: BillRecord, g: Grouping)
    requires SavedCost(r.cost) && KeyOf(r, g).Some?
    ensures Entry(r, g).Some? && Entry(r, g).value.1 == Commons.Contribution(r.cost)
  {
    SavedCostAmounts(r.cost);
  }

  lemma EntriesTotalStep(es: seq<Option<(string, real)>>, e: Option<(string, real)>)
    ensures EntriesTotal(es + [e]) == EntriesTotal(es) + match e case Some((_, c)) => c case None => 0.0
  {
    assert (es + [e])[..|es|] == es;
  }

  /** Every bill has a saved cost and a key the chart can read. */
  predicate AllSaved(bills: seq<BillRecord>, g: Grouping) {
    bills == [] ||
    (AllSaved(bills[..|bills| - 1], g) && SavedCost(bills[|bills| - 1].cost) && KeyOf(bills[|bills| - 1], g).Some?)
  }

  lemma {:induction false} AllSavedAt(bills: seq<BillRecord>, g: Grouping, i: nat)
    requires AllSaved(bills, g) && i < |bills|
    ensures SavedCost(bills[i].cost) && KeyOf(bills[i], g).Some?
  {
    if i < |bills| - 1 {
      AllSavedAt(bills[..|bills| - 1], g, i);
    }
  }

  /** When every cost is a saved one and every key can be read, a chart's
      groups add up to the same total as the label under the table. */
  lemma {:induction false} ChartTotalIsTotal(bills: seq<BillRecord>, g: Grouping)
    requires AllSaved(bills, g)
    ensures EntriesTotal(Entries(bills, g)) == Commons.TotalOf(bills)
  {
    if bills != [] {
      var init := bills[..|bills| - 1];
      var r := bills[|bills| - 1];
      ChartTotalIsTotal(init, g);
      EntriesLast(bills, g);
      EntriesTotalStep(Entries(init, g), Entry(r, g));
      SavedEntry(r, g);
      Commons.TotalStep(init, r);
    }
  }

  /** The edit dialog keeps a cost typed as "50rmb" as it is, and the total
      reads 50 from it, but the charts cannot read it. */
  lemma EditCanBreakCharts()
    ensures Commons.EditedCost("50rmb") == Some("50rmb")
    ensures Commons.Contribution("50rmb") == 50.0
    ensures ChartCost("50rmb").None?
  {
    RmbSuffixKept();
    RmbSuffixAmount();
    RmbSuffixUnreadable();
  }

  lemma RmbSuffixNumeric()
    ensures Replace(ToLower("50rmb"), "rmb", "") == "50"
  {
    var s := "50rmb";
    assert ToLower(s) == s;
    assert s == "50" + "rmb";
    ReplaceSkipsPrefix("50", "rmb", "rmb", "");
    ReplaceWhole("rmb", "");
    assert "50" + "" == "50";
  }

  lemma RmbSuffixKept()
    ensures Commons.EditedCost("50rmb") == Some("50rmb")
  {
    RmbSuffixNumericPart();
    FiftyParses();
    RmbSuffixEndsWithRmb();
  }

  lemma RmbSuffixEndsWithRmb()
    ensures EndsWith(ToLower("50rmb"), "rmb")
  {
    assert ToLower("50rmb") == "50rmb";
    assert "50rmb"[5 - 3..] == "rmb";
  }

  lemma RmbSuffixNumericPart()
    ensures Commons.NumericPart("50rmb") == "50"
  {
    RmbSuffixNumeric();
    FiftyParses();
  }

  lemma RmbSuffixAmount()
    ensures Commons.Contribution("50rmb") == 50.0
  {
    RmbSuffixCostAmount();
  }

  lemma RmbSuffixCostAmount()
    ensures Commons.CostAmount("50rmb") == Some(50.0)
  {
    RmbSuffixNumericPart();
    FiftyParses();
  }

  lemma FiftyParses()
    ensures Trim("50") == "50" && ParseLiteral("50") == Some(50.0) && ParseDouble("50") == Some(50.0)
  {
    TrimKeepsUnpadded("50");
    WholeNumberParses("50");
    UnsignedIsLiteral("50");
    assert DigitsValue("50") == 50 by {
      assert "50"[..1] == "5";
      assert "5"[..0] == "";
    }
  }

  lemma RmbSuffixUnreadable()
    ensures ChartCost("50rmb").None?
  {
    RmbSuffixHasNoTarget();
    RmbSuffixNotALiteral();
  }

  lemma RmbSuffixHasNoTarget()
    ensures Replace("50rmb", " RMB", "") == "50rmb"
  {
    var s := "50rmb";
    ReplaceSkipsPrefix(s, "", " RMB", "");
    assert s + "" == s;
  }

  lemma RmbSuffixNotALiteral()
    ensures ParseDouble("50rmb").None?
  {
    var s := "50rmb";
    assert s[2] == 'r';
    NonNumeralRejected(s, 2);
    TrimKeepsUnpadded(s);
  }

  /** One pass of the loop reads bill i's key, then its cost. */
  method ReadEntry(bills: seq<Bill>, i: nat, g: Grouping) returns (e: Option<(string, real)>)
    requires i < |bills|
    ensures e == Entries(Snapshots(bills), g)[i]
  {
    var b := bills[i];
    var key := match g case ByDate => DateKey(b.date) case ByCategory => Some(b.category);
    if key.None? {
      return None;
    }
    var cost := ChartCost(b.cost);
    if cost.None? {
      return None;
    }
    e := Some((key.value, cost.value));
  }

  /** One pass of the loop: the map of the first i bills becomes the map of
      the first i + 1, or the update fails on bill i. */
  method AddBill(bills: seq<Bill>, i: nat, g: Grouping, m: map<string, real>) returns (next: Option<map<string, real>>)
    requires i < |bills| && Aggregate(Entries(Snapshots(bills), g)[..i]) == Some(m)
    ensures next == Aggregate(Entries(Snapshots(bills), g)[..i + 1])
  {
    ghost var es := Entries(Snapshots(bills), g);
    var e := ReadEntry(bills, i, g);
    if e.None? {
      assert es[..i + 1][i] == es[i];
      AggregateFailsAt(es[..i + 1], i);
      return None;
    }
    var (k, c) := e.value;
    AggregatePrefix(es, i, m, k, c);
    next := Some(m[k := (if k in m then m[k] else 0.0) + c]);
  }

  /** The loop of `createBarChart` / `createPieChart`: the map is filled bill
      by bill; None when a bill cannot be read. */
  method BuildTotals(bills: seq<Bill>, g: Grouping) returns (r: Option<map<string, real>>)
    ensures r == ChartData(Snapshots(bills), g)
    ensures r.Some? <==> Chartable(Snapshots(bills), g)
  {
    ChartDataDefined(Snapshots(bills), g);
    ghost var es := Entries(Snapshots(bills), g);
    var m: map<string, real> := map[];
    var i := 0;
    while i < |bills|
      invariant 0 <= i <= |bills|
      invariant Aggregate(es[..i]) == Some(m)
    {
      var next := AddBill(bills, i, g, m);
      if next.None? {
        AggregatePrefixFails(es, i + 1);
        return None;
      }
      m := next.value;
      i := i + 1;
    }
    assert es[..i] == es;
    r := Some(m);
  }

  /** The data the two charts show. */
  class Charts {
    var barData: map<string, real>
    var pieData: map<string, real>

    constructor ()
      ensures barData == map[] && pieData == map[]
    {
      barData := map[];
      pieData := map[];
    }

    /** `createBarChart`: the series is cleared first, then filled with the
        per-day totals; when a bill cannot be read it stays empty. */
    method CreateBarChart(bills: seq<Bill>) returns (ok: bool)
      modifies this`barData
      ensures ok <==> Chartable(Snapshots(bills), ByDate)
      ensures barData == ChartData(Snapshots(bills), ByDate).GetOr(map[])
    {
      barData := map[];
      var totals := BuildTotals(bills, ByDate);
      if totals.None? {
        return false;
      }
      barData := totals.value;
      ok := true;
    }

    /** `createPieChart`: the per-type totals are computed first and the old
        data is cleared only afterwards; when a bill cannot be read the old
        data stays. */
    method CreatePieChart(bills: seq<Bill>) returns (ok: bool)
      modifies this`pieData
      ensures ok <==> Chartable(Snapshots(bills), ByCategory)
      ensures ok ==> ChartData(Snapshots(bills), ByCategory) == Some(pieData)
      ensures !ok ==> pieData == old(pieData)
    {
      var totals := BuildTotals(bills, ByCategory);
      if totals.None? {
        return false;
      }
      pieData := totals.value;
      ok := true;
    }

    /** What a change to the list triggers: the bar chart, then the pie chart;
        a failing bar chart ends the update before the pie chart. */
    method Refresh(bills: seq<Bill>) returns (ok: bool)
      modifies this`barData, this`pieData
      ensures barData == ChartData(Snapshots(bills), ByDate).GetOr(map[])
      ensures ok <==> Chartable(Snapshots(bills), ByDate) && Chartable(Snapshots(bills), ByCategory)
      ensures ok ==> ChartData(Snapshots(bills), ByCategory) == Some(pieData)
      ensures !ok ==> pieData == old(pieData)
    {
      ok := CreateBarChart(bills);
      if !ok {
        return;
      }
      ok := CreatePieChart(bills);
    }
  }
}
