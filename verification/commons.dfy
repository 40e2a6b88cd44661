/** The bill table's handlers: validation of the add and edit dialogs, the cost
    text each of them saves, the running total shown under the table, and what
    add, delete, edit, import and export do to the list of bills. Dialogs,
    widgets, styling and file choosers are not modelled; a handler receives the
    texts the user typed. */
module Commons {
  import opened Wrappers
  import opened Strings
  import opened Decimal
  import opened Bills
  import opened BillUtils

  // ---------------------------------------------------------------------------
  // Dates: the pattern yyyy-MM-dd HH:mm

  datatype DateTime = DateTime(year: nat, month: nat, day: nat, hour: nat, minute: nat)

  /** The field values the formatter accepts: a four-digit year of the current
      era, month 1..12, day 1..31, hour 0..23 and minute 0..59, or 24:00, which
      the default (smart) resolver takes for midnight at the end of the day. */
  predicate InRange(dt: DateTime) {
    1 <= dt.year <= 9999 && 1 <= dt.month <= 12 && 1 <= dt.day <= 31 && dt.minute <= 59
    && (dt.hour <= 23 || (dt.hour == 24 && dt.minute == 0))
  }

  /** `LocalDateTime.parse(t, ofPattern("yyyy-MM-dd HH:mm"))`: the whole text must
      be dddd-dd-dd dd:dd with every field in range. */
  function ParseDateTime(t: string): (r: Option<DateTime>)
    ensures r.Some? ==> InRange(r.value) && |t| == 16 && IsDigit(t[0]) && IsDigit(t[15])
  {
    if |t| == 16 && t[4] == '-' && t[7] == '-' && t[10] == ' ' && t[13] == ':'
       && AllDigits(t[..4]) && AllDigits(t[5..7]) && AllDigits(t[8..10])
       && AllDigits(t[11..13]) && AllDigits(t[14..])
    then
      var dt := DateTime(DigitsValue(t[..4]), DigitsValue(t[5..7]), DigitsValue(t[8..10]),
                         DigitsValue(t[11..13]), DigitsValue(t[14..]));
      if InRange(dt) then Some(dt) else None
    else
      None
  }

  /** n written with exactly `width` digits, zero-padded on the left. */
  function FixedDigits(n: nat, width: nat): (s: string)
    requires n < Pow10(width)
    ensures |s| == width && AllDigits(s)
    ensures DigitsValue(s) == n
  {
    if width == 0 then ""
    else
      var p := FixedDigits(n / 10, width - 1);
      var s := p + [DigitChar(n % 10)];
      assert s[..|s| - 1] == p;
      s
  }

  /** A run of k digits is below 10^k. */
  lemma {:induction false} DigitsValueBound(s: string)
    requires AllDigits(s)
    ensures DigitsValue(s) < Pow10(|s|)
  {
    if s != [] {
      DigitsValueBound(s[..|s| - 1]);
    }
  }

  /** `LocalDateTime.format(ofPattern("yyyy-MM-dd HH:mm"))`. */
  function FormatDateTime(dt: DateTime): string
    requires InRange(dt)
  {
    assert Pow10(2) == 100 && Pow10(4) == 10000;
    FixedDigits(dt.year, 4) + "-" + FixedDigits(dt.month, 2) + "-" + FixedDigits(dt.day, 2) + " "
    + FixedDigits(dt.hour, 2) + ":" + FixedDigits(dt.minute, 2)
  }

  lemma FormatParseRoundTrip(dt: DateTime)
    requires InRange(dt)
    ensures ParseDateTime(FormatDateTime(dt)) == Some(dt)
  {
    var t := FormatDateTime(dt);
    assert t[..4] == FixedDigits(dt.year, 4);
    assert t[5..7] == FixedDigits(dt.month, 2);
    assert t[8..10] == FixedDigits(dt.day, 2);
    assert t[11..13] == FixedDigits(dt.hour, 2);
    assert t[14..] == FixedDigits(dt.minute, 2);
    assert Pow10(2) == 100 && Pow10(4) == 10000;
  }

  lemma {:induction false} FixedDigitsOfValue(s: string)
    requires AllDigits(s)
    ensures DigitsValue(s) < Pow10(|s|) && FixedDigits(DigitsValue(s), |s|) == s
  {
    DigitsValueBound(s);
    if s != [] {
      var init := s[..|s| - 1];
      FixedDigitsOfValue(init);
      assert DigitsValue(s) / 10 == DigitsValue(init);
      assert init + [s[|s| - 1]] == s;
    }
  }

  lemma ParseFormatRoundTrip(t: string)
    requires ParseDateTime(t).Some?
    ensures FormatDateTime(ParseDateTime(t).value) == t
  {
    FixedDigitsOfValue(t[..4]);
    FixedDigitsOfValue(t[5..7]);
    FixedDigitsOfValue(t[8..10]);
    FixedDigitsOfValue(t[11..13]);
    FixedDigitsOfValue(t[14..]);
    var dt := ParseDateTime(t).value;
    assert FormatDateTime(dt) == t[..4] + "-" + t[5..7] + "-" + t[8..10] + " " + t[11..13] + ":" + t[14..];
  }

  /** `isValidDate`: false for null or blank text, otherwise whether the trimmed
      text parses. A valid date is 16 characters once trimmed, and text that
      parses is valid as it stands, since it has no blanks to trim. */
  predicate IsValidDate(date: Option<string>)
    ensures IsValidDate(date) ==> date.Some? && |Trim(date.value)| == 16
    ensures date.Some? && ParseDateTime(date.value).Some? ==> IsValidDate(date)
  {
    match date
    case None => false
    case Some(s) =>
      ParsedIsTrimmed(s);
      Trim(s) != [] && ParseDateTime(Trim(s)).Some?
  }

  lemma ParsedIsTrimmed(t: string)
    ensures ParseDateTime(t).Some? ==> Trim(t) == t
  {
    if ParseDateTime(t).Some? {
      TrimKeepsUnpadded(t);
    }
  }

  /** The date the add dialog is filled with, the current time formatted with
      the same pattern, always passes the check. */
  lemma FormattedDateIsValid(dt: DateTime)
    requires InRange(dt)
    ensures IsValidDate(Some(FormatDateTime(dt)))
  {
    FormatParseRoundTrip(dt);
  }

  /** A valid date is exactly the formatting of some in-range date and time,
      up to blanks around it. */
  lemma ValidDateIsFormatted(s: string)
    ensures IsValidDate(Some(s)) <==> exists dt :: InRange(dt) && Trim(s) == FormatDateTime(dt)
  {
    if IsValidDate(Some(s)) {
      var dt := ParseDateTime(Trim(s)).value;
      ParseFormatRoundTrip(Trim(s));
      assert InRange(dt) && Trim(s) == FormatDateTime(dt);
    }
    if exists dt :: InRange(dt) && Trim(s) == FormatDateTime(dt) {
      var dt :| InRange(dt) && Trim(s) == FormatDateTime(dt);
      FormatParseRoundTrip(dt);
    }
  }

  lemma TwoDigitValue(s: string)
    requires |s| == 2 && AllDigits(s)
    ensures DigitsValue(s) == DigitValue(s[0]) * 10 + DigitValue(s[1])
  {
    assert s[..1][..0] == [];
    assert s[..1] == [s[0]];
    assert DigitsValue(s[..1]) == DigitValue(s[0]);
  }

  lemma DateValidatorAcceptsExample()
    ensures IsValidDate(Some("2023-01-01 10:00"))
  {
    FormattedDateIsValid(DateTime(2023, 1, 1, 10, 0));
    ExampleDateText();
  }

  lemma ExampleDateText()
    ensures FormatDateTime(DateTime(2023, 1, 1, 10, 0)) == "2023-01-01 10:00"
  {
    ExampleDateDigits();
  }

  lemma ExampleDateDigits()
    ensures FixedDigits(2023, 4) == "2023" && FixedDigits(1, 2) == "01"
    ensures FixedDigits(10, 2) == "10" && FixedDigits(0, 2) == "00"
  {
    YearDigits();
    assert FixedDigits(1, 1) == "1" && FixedDigits(0, 1) == "0";
  }

  lemma YearDigits()
    ensures FixedDigits(2023, 4) == "2023"
  {
    assert FixedDigits(20, 2) == "20";
    assert FixedDigits(202, 3) == "202";
  }

  lemma EndOfDayDigits()
    ensures FixedDigits(24, 2) == "24"
  {
    assert FixedDigits(2, 1) == "2";
  }

  /** The end of the day is written 24:00 and accepted. */
  lemma DateValidatorAcceptsEndOfDay()
    ensures IsValidDate(Some("2023-01-01 24:00"))
  {
    FormattedDateIsValid(DateTime(2023, 1, 1, 24, 0));
    EndOfDayText();
  }

  lemma EndOfDayText()
    ensures FormatDateTime(DateTime(2023, 1, 1, 24, 0)) == "2023-01-01 24:00"
  {
    ExampleDateDigits();
    EndOfDayDigits();
  }

  lemma DateValidatorRejectsSlashes()
    ensures !IsValidDate(Some("2023/01/01 10:00"))
  {
    var t := "2023/01/01 10:00";
    assert ParseDateTime(t).None? by {
      assert t[4] == '/';
    }
    TrimKeepsUnpadded(t);
  }

  lemma DateValidatorRejectsMonth13()
    ensures !IsValidDate(Some("2023-13-01 10:00"))
  {
    var t := "2023-13-01 10:00";
    TrimKeepsUnpadded(t);
    TwoDigitValue(t[5..7]);
  }

  lemma DateValidatorRejectsDateOnly()
    ensures !IsValidDate(Some("2023-01-01"))
  {
    TrimKeepsUnpadded("2023-01-01");
  }

  lemma DateValidatorRejectsWords()
    ensures !IsValidDate(Some("not a date"))
  {
    TrimKeepsUnpadded("not a date");
  }

  lemma DateValidatorRejectsMissing()
    ensures !IsValidDate(None) && !IsValidDate(Some(" "))
  {
    TrimEmptyIffBlank(" ");
  }

  // ---------------------------------------------------------------------------
  // Costs

  /** `isValidCost`: false for null or blank text, otherwise whether the trimmed
      text parses as a number, that is, whether it is a decimal literal. */
  predicate IsValidCost(cost: Option<string>)
    ensures IsValidCost(cost) <==> cost.Some? && ParseLiteral(Trim(cost.value)).Some?
  {
    match cost
    case None => false
    case Some(s) =>
      TrimIdempotent(s);
      Trim(s) != [] && ParseDouble(Trim(s)).Some?
  }

  /** A literal is a valid cost as it stands. */
  lemma LiteralIsValidCost(t: string)
    requires ParseLiteral(t).Some?
    ensures IsValidCost(Some(t))
  {
    LiteralShape(t);
    TrimKeepsUnpadded(t);
    assert Trim(t) == t;
  }

  lemma CostValidatorAcceptsWhole()
    ensures IsValidCost(Some("100"))
  {
    WholeNumberParses("100");
    LiteralIsValidCost("100");
  }

  lemma CostValidatorAcceptsZero()
    ensures IsValidCost(Some("0"))
  {
    WholeNumberParses("0");
    LiteralIsValidCost("0");
  }

  lemma CostValidatorAcceptsDecimal()
    ensures IsValidCost(Some("123.45"))
  {
    TwoPlaceDecimalParses("123", "45");
    assert "123" + "." + "45" == "123.45";
    UnsignedIsLiteral("123.45");
    LiteralIsValidCost("123.45");
  }

  lemma CostValidatorAcceptsSigned()
    ensures IsValidCost(Some("-5"))
  {
    WholeNumberParses("5");
    assert "-5"[1..] == "5";
    LiteralIsValidCost("-5");
  }

  lemma CostValidatorRejectsText()
    ensures !IsValidCost(Some("abc")) && !IsValidCost(Some("100 RMB"))
  {
    CostValidatorRejectsWord();
    CostValidatorRejectsUnit();
  }

  lemma CostValidatorRejectsWord()
    ensures !IsValidCost(Some("abc"))
  {
    NonNumeralRejected("abc", 0);
    TrimKeepsUnpadded("abc");
  }

  lemma CostValidatorRejectsUnit()
    ensures !IsValidCost(Some("100 RMB"))
  {
    NonNumeralRejected("100 RMB", 3);
    TrimKeepsUnpadded("100 RMB");
  }

  lemma CostValidatorRejectsMissing()
    ensures !IsValidCost(None) && !IsValidCost(Some(" "))
  {
    TrimEmptyIffBlank(" ");
  }

  /** The numeric part of a cost: lower-cased, every "rmb" removed, trimmed.
      It has no capital letter and no blank at either end. */
  function NumericPart(costText: string): (r: string)
    ensures r == [] || (!IsBlank(r[0]) && !IsBlank(r[|r| - 1]))
    ensures NoCapital(r)
  {
    var removed := Replace(ToLower(costText), "rmb", "");
    ToLowerNoCapital(costText);
    ReplaceNoCapital(ToLower(costText), "rmb", "");
    TrimNoCapital(removed);
    Trim(removed)
  }

  /** The amount the total reads from a cost cell: lower-case it, remove every
      "rmb", trim; an empty cell or an empty remainder has no amount. The
      amount is the literal the numeric part spells, if any. */
  function CostAmount(cost: string): (r: Option<real>)
    ensures r.Some? <==> cost != "" && ParseLiteral(NumericPart(cost)).Some?
    ensures r.Some? ==> r == ParseLiteral(NumericPart(cost))
  {
    if cost == "" then None
    else
      var t := Trim(Replace(ToLower(cost), "rmb", ""));
      TrimIdempotent(Replace(ToLower(cost), "rmb", ""));
      if t == [] then None else ParseDouble(t)
  }

  /** A literal followed by " RMB", as add and edit save it, reads back as the
      literal's value. */
  lemma CanonicalCostAmount(lit: string)
    requires ParseLiteral(lit).Some?
    ensures CostAmount(lit + " RMB") == ParseLiteral(lit)
  {
    LiteralShape(lit);
    ToLowerAppend(lit, " RMB");
    ToLowerKeepsNonLetters(lit);
    assert ToLower(" RMB") == " rmb";
    ReplaceSkipsPrefix(lit, " rmb", "rmb", "");
    ReplaceSkipsPrefix(" ", "rmb", "rmb", "");
    ReplaceWhole("rmb", "");
    assert " " + "rmb" == " rmb";
    assert Replace(" rmb", "rmb", "") == " ";
    TrimDropsTrailingSpace(lit);
    ParseDoubleOfLiteral(lit);
  }

  /** The contribution of one bill to the total: its amount, or nothing. */
  function Contribution(cost: string): (r: real)
    ensures CostAmount(cost) == Some(r) || (CostAmount(cost).None? && r == 0.0)
  {
    match CostAmount(cost)
    case Some(v) => v
    case None => 0.0
  }

  /** The sum `updateTotalCost` computes. Only readable costs count, so a list
      without one sums to zero; a list without negative amounts has a
      non-negative sum. */
  function TotalOf(bills: seq<BillRecord>): (r: real)
  {
    if bills == [] then 0.0 else TotalOf(bills[..|bills| - 1]) + Contribution(bills[|bills| - 1].cost)
  }

  /** Without negative amounts the total is not negative. */
  lemma {:induction false} TotalNonNegative(bills: seq<BillRecord>)
    requires forall i :: 0 <= i < |bills| ==> Contribution(bills[i].cost) >= 0.0
    ensures TotalOf(bills) >= 0.0
  {
    if bills != [] {
      var init := bills[..|bills| - 1];
      assert forall i :: 0 <= i < |init| ==> init[i] == bills[i];
      TotalNonNegative(init);
    }
  }

  lemma TotalStep(bills: seq<BillRecord>, r: BillRecord)
    ensures TotalOf(bills + [r]) == TotalOf(bills) + Contribution(r.cost)
  {
    assert (bills + [r])[..|bills|] == bills;
  }

  /** The total of a list is the sum of the totals of its parts. */
  lemma {:induction false} TotalAppend(a: seq<BillRecord>, b: seq<BillRecord>)
    ensures TotalOf(a + b) == TotalOf(a) + TotalOf(b)
    decreases |b|
  {
    if b == [] {
      assert a + b == a;
    } else {
      var init := b[..|b| - 1];
      var last := b[|b| - 1];
      assert a + b == (a + init) + [last];
      TotalStep(a + init, last);
      TotalAppend(a, init);
    }
  }

  /** A cost that does not read as an amount is skipped: the bills after it
      still count, and the total is that of the list without it. */
  lemma TotalSkipsUnreadable(a: seq<BillRecord>, r: BillRecord, b: seq<BillRecord>)
    requires CostAmount(r.cost).None?
    ensures TotalOf(a + [r] + b) == TotalOf(a) + TotalOf(b)
  {
    TotalAppend(a + [r], b);
    TotalStep(a, r);
  }

  /** The label text for a sum: "Total Cost: ", the sum with two decimals, and
      " RMB". */
  function TotalLabel(sum: real): (r: string)
    ensures |r| >= 16 && r[..12] == "Total Cost: " && r[|r| - 4..] == " RMB"
  {
    "Total Cost: " + Format2(sum) + " RMB"
  }

  /** The number between "Total Cost: " and " RMB" reads back as the sum
      rounded to hundredths. */
  lemma TotalLabelReadsBack(sum: real)
    ensures var r := TotalLabel(sum); ParseDouble(r[12..|r| - 4]) == Some(Rounded2(sum))
  {
    var r := TotalLabel(sum);
    assert r[12..|r| - 4] == Format2(sum);
    Format2RoundTrip(sum);
  }

  /** The label text under the table. */
  function TotalText(bills: seq<BillRecord>): string {
    TotalLabel(TotalOf(bills))
  }

  /** The label under the table shows the list's total to within half a
      hundredth. */
  lemma TotalTextShowsTotal(bills: seq<BillRecord>)
    ensures var r := TotalText(bills);
      ParseDouble(r[12..|r| - 4]).Some?
      && -0.005 <= ParseDouble(r[12..|r| - 4]).value - TotalOf(bills) <= 0.005
  {
    TotalLabelReadsBack(TotalOf(bills));
    Rounded2Close(TotalOf(bills));
  }

  lemma TotalOfEmptyList()
    ensures TotalText([]) == "Total Cost: 0.00 RMB"
  {
    assert Cents(0.0) == 0;
    assert NatToDigits(0) == "0";
  }

  /** digits '.' two digits " RMB", as the dialogs save a cost, counts for
      its decimal value. */
  lemma CanonicalContribution(w: string, f: string)
    requires w != [] && AllDigits(w) && |f| == 2 && AllDigits(f)
    ensures Contribution(w + "." + f + " RMB") == DigitsValue(w) as real + DigitsValue(f) as real / 100.0
  {
    TwoPlaceDecimalParses(w, f);
    assert (w + "." + f)[0] == w[0];
    UnsignedIsLiteral(w + "." + f);
    CanonicalCostAmount(w + "." + f);
  }

  /** The digits of the example costs. */
  lemma ExampleCostDigits()
    ensures "10.50 RMB" == "10" + "." + "50" + " RMB"
    ensures "20.00 RMB" == "20" + "." + "00" + " RMB"
    ensures "5.25 RMB" == "5" + "." + "25" + " RMB"
    ensures AllDigits("10") && DigitsValue("10") == 10 && AllDigits("50") && DigitsValue("50") == 50
    ensures AllDigits("20") && DigitsValue("20") == 20 && AllDigits("00") && DigitsValue("00") == 0
    ensures AllDigits("5") && DigitsValue("5") == 5 && AllDigits("25") && DigitsValue("25") == 25
  {
    TwoDigitValue("10");
    TwoDigitValue("50");
    TwoDigitValue("20");
    TwoDigitValue("00");
    TwoDigitValue("25");
    assert "5"[..0] == "";
  }

  lemma ExampleAmount1050()
    ensures Contribution("10.50 RMB") == 10.5
  {
    ExampleCostDigits();
    CanonicalContribution("10", "50");
  }

  lemma ExampleAmount2000()
    ensures Contribution("20.00 RMB") == 20.0
  {
    ExampleCostDigits();
    CanonicalContribution("20", "00");
  }

  lemma ExampleAmount525()
    ensures Contribution("5.25 RMB") == 5.25
  {
    ExampleCostDigits();
    CanonicalContribution("5", "25");
  }

  lemma FourRecords(r1: BillRecord, r2: BillRecord, r3: BillRecord, r4: BillRecord)
    ensures [r1, r2, r3, r4] == [] + [r1] + [r2] + [r3] + [r4]
  {
  }

  /** The total of four bills is the sum of their contributions. */
  lemma TotalOfFour(r1: BillRecord, r2: BillRecord, r3: BillRecord, r4: BillRecord)
    ensures TotalOf([r1, r2, r3, r4]) == Contribution(r1.cost) + Contribution(r2.cost) + Contribution(r3.cost) + Contribution(r4.cost)
  {
    FourRecords(r1, r2, r3, r4);
    TotalStep([], r1);
    TotalStep([] + [r1], r2);
    TotalStep([] + [r1] + [r2], r3);
    TotalStep([] + [r1] + [r2] + [r3], r4);
  }

  lemma ExampleSumDigits()
    ensures NatToDigits(35) == "35"
    ensures [DigitChar(7), DigitChar(5)] == "75"
  {
    assert NatToDigits(3) == "3";
  }

  lemma ExampleSumFormat()
    ensures Format2(35.75) == "35.75"
  {
    assert Cents(35.75) == 3575;
    ExampleSumDigits();
    assert FixedPoint2(3575) == NatToDigits(35) + "." + [DigitChar(7), DigitChar(5)];
  }

  lemma TotalExampleFormat()
    ensures TotalLabel(35.75) == "Total Cost: 35.75 RMB"
  {
    ExampleSumFormat();
  }

  /** Four bills of 10.50 RMB, 20.00 RMB, no cost and 5.25 RMB show a total
      of 35.75 RMB, whatever their other cells. */
  lemma TotalExample(r1: BillRecord, r2: BillRecord, r3: BillRecord, r4: BillRecord)
    requires r1.cost == "10.50 RMB" && r2.cost == "20.00 RMB" && r3.cost == "" && r4.cost == "5.25 RMB"
    ensures TotalText([r1, r2, r3, r4]) == "Total Cost: 35.75 RMB"
  {
    ExampleAmount1050();
    ExampleAmount2000();
    ExampleAmount525();
    TotalOfFour(r1, r2, r3, r4);
    TotalExampleFormat();
  }

  // ---------------------------------------------------------------------------
  // The add and edit dialogs

  /** Why a dialog refuses to save; the date is checked first. */
  datatype SaveError = InvalidDate | InvalidCost

  /** The add dialog's Save: the typed cost is trimmed, checked and saved with
      " RMB" appended; the type is the selected radio button's label, or
      "Others" when none is selected. */
  function AddedBill(date: string, name: string, details: string, costText: string, selected: Option<string>): (r: Result<BillRecord, SaveError>)
    ensures r.Err? <==> !IsValidDate(Some(date)) || !IsValidCost(Some(Trim(costText)))
    ensures r.Err? ==> (r.error == InvalidDate <==> !IsValidDate(Some(date)))
    ensures r.Ok? ==> r.value == BillRecord(date, name, details, Trim(costText) + " RMB", selected.GetOr("Others"))
  {
    var cost := Trim(costText);
    if !IsValidDate(Some(date)) then Err(InvalidDate)
    else if !IsValidCost(Some(cost)) then Err(InvalidCost)
    else Ok(BillRecord(date, name, details, if cost == [] then "0 RMB" else cost + " RMB", selected.GetOr("Others")))
  }

  /** The cost an added bill is saved with reads back, in the total, as the
      number the user typed. */
  lemma AddedCostReadsBack(date: string, name: string, details: string, costText: string, selected: Option<string>)
    requires AddedBill(date, name, details, costText, selected).Ok?
    ensures CostAmount(AddedBill(date, name, details, costText, selected).value.cost)
         == ParseDouble(costText)
    ensures ParseDouble(costText).Some?
  {
    var t := Trim(costText);
    TrimIdempotent(costText);
    CanonicalCostAmount(t);
  }

  /** The edit dialog's cost: None when the numeric part is not a number;
      otherwise the typed text when it already ends in "rmb" in any case, else
      the numeric part followed by " RMB". */
  function EditedCost(costText: string): (r: Option<string>)
    ensures r.Some? <==> ParseLiteral(NumericPart(costText)).Some?
    ensures r.Some? && EndsWith(ToLower(costText), "rmb") ==> r.value == costText
    ensures r.Some? && !EndsWith(ToLower(costText), "rmb") ==> r.value == NumericPart(costText) + " RMB"
  {
    var numeric := NumericPart(costText);
    TrimIdempotent(Replace(ToLower(costText), "rmb", ""));
    if !IsValidCost(Some(numeric)) then None
    else if numeric != [] && !EndsWith(ToLower(costText), "rmb") then Some(numeric + " RMB")
    else if numeric == [] then Some("0 RMB")
    else Some(costText)
  }

  /** Whichever text edit saves, the total reads the same amount from it as
      from what the user typed. */
  lemma EditedCostKeepsAmount(costText: string)
    requires EditedCost(costText).Some?
    ensures CostAmount(costText).Some?
    ensures CostAmount(EditedCost(costText).value) == CostAmount(costText)
  {
    var numeric := NumericPart(costText);
    LiteralShape(numeric);
    ParseDoubleOfLiteral(numeric);
    if !EndsWith(ToLower(costText), "rmb") {
      CanonicalCostAmount(numeric);
    }
  }

  /** The edit dialog's Save: the date as typed (checked after trimming), the
      edited cost, and the other cells as typed. */
  function EditedBill(date: string, name: string, details: string, costText: string, typeText: string): (r: Result<BillRecord, SaveError>)
    ensures r.Err? <==> !IsValidDate(Some(date)) || EditedCost(costText).None?
    ensures r.Err? ==> (r.error == InvalidDate <==> !IsValidDate(Some(date)))
    ensures r.Ok? ==> r.value == BillRecord(date, name, details, EditedCost(costText).value, typeText)
  {
    if !IsValidDate(Some(date)) then Err(InvalidDate)
    else
      match EditedCost(costText)
      case None => Err(InvalidCost)
      case Some(cost) => Ok(BillRecord(date, name, details, cost, typeText))
  }

  // ---------------------------------------------------------------------------
  // The list

  /** `List.remove(Object)`: the first occurrence goes, the rest keep their order. */
  function RemoveFirst<T(==)>(s: seq<T>, x: T): (r: seq<T>)
    ensures x !in s ==> r == s
    ensures x in s ==> exists i :: 0 <= i < |s| && s[i] == x && x !in s[..i] && r == s[..i] + s[i + 1..]
  {
    var i := IndexOf(s, x);
    if i == |s| then s
    else
      assert x !in s[..i];
      s[..i] + s[i + 1..]
  }

  /** Exactly one occurrence of x is removed, and nothing else. */
  lemma RemoveFirstCount<T>(s: seq<T>, x: T)
    ensures x in s ==> |RemoveFirst(s, x)| == |s| - 1 && multiset(RemoveFirst(s, x)) == multiset(s) - multiset{x}
  {
    if x in s {
      var i := IndexOf(s, x);
      assert s == s[..i] + [s[i]] + s[i + 1..];
    }
  }

  /** `createExportButton` appends ".csv" unless the chosen name already ends
      with it in any case. */
  function CsvFileName(name: string): (r: string)
    ensures EndsWith(ToLower(r), ".csv")
    ensures |r| >= |name| && r[..|name|] == name
    ensures EndsWith(ToLower(name), ".csv") ==> r == name
  {
    if EndsWith(ToLower(name), ".csv") then name
    else
      ToLowerAppend(name, ".csv");
      assert ToLower(".csv") == ".csv";
      name + ".csv"
  }

  lemma CsvFileNameIdempotent(name: string)
    ensures CsvFileName(CsvFileName(name)) == CsvFileName(name)
  {
  }

  /** One pass of the loop in `updateTotalCost`: an empty cell, an empty
      remainder or a parse failure leaves the sum as it is. */
  method AddCost(sum: real, cost: string) returns (total: real)
    ensures total == sum + Contribution(cost)
    ensures CostAmount(cost).None? ==> total == sum
  {
    total := sum;
    if cost != "" {
      var costString := Trim(Replace(ToLower(cost), "rmb", ""));
      if costString != [] {
        var parsed := ParseDouble(costString);
        if parsed.Some? {
          total := total + parsed.value;
        }
      }
    }
  }

  /** `updateTotalCost`: the loop over the bills that adds up the amounts. */
  method SumCosts(bills: seq<Bill>) returns (sum: real)
    ensures sum == TotalOf(Snapshots(bills))
  {
    sum := 0.0;
    var i := 0;
    while i < |bills|
      invariant 0 <= i <= |bills|
      invariant sum == TotalOf(Snapshots(bills[..i]))
    {
      SnapshotsPrefixStep(bills, i);
      TotalStep(Snapshots(bills[..i]), bills[i].Snap());
      sum := AddCost(sum, bills[i].cost);
      i := i + 1;
    }
    assert bills[..i] == bills;
  }

  /** The table: the list of bills it shows and the total label under it. */
  class BillTable {
    var items: seq<Bill>
    var totalLabel: string

    function Records(): seq<BillRecord>
      reads this`items, set b | b in items
    {
      Snapshots(items)
    }

    constructor (bills: seq<Bill>)
      ensures items == bills
      ensures totalLabel == TotalText(Records())
    {
      var sum := SumCosts(bills);
      var shown := TotalLabel(sum);
      assert shown == TotalText(Snapshots(bills));
      items := bills;
      totalLabel := shown;
    }

    /** `updateTotalCost(items, label)`. */
    method UpdateTotalCost()
      modifies this`totalLabel
      ensures totalLabel == TotalText(Records())
    {
      var sum := SumCosts(items);
      var shown := TotalLabel(sum);
      assert shown == TotalText(Records());
      totalLabel := shown;
    }

    /** `List.add`: the bill goes to the end of the list. */
    method Add(b: Bill)
      modifies this`items
      ensures items == old(items) + [b]
      ensures |items| == |old(items)| + 1 && items[..|old(items)|] == old(items) && items[|old(items)|] == b
      ensures Records() == old(Records()) + [b.Snap()]
    {
      SnapshotsAppend(items, b);
      AppendKeepsPrefix(items, b);
      items := items + [b];
    }

    /** Save in the add dialog: a valid bill is appended and the total
        recomputed; an invalid one changes nothing. */
    method SaveAdd(date: string, name: string, details: string, costText: string, selected: Option<string>)
      returns (r: Result<BillRecord, SaveError>)
      modifies this
      ensures r == AddedBill(date, name, details, costText, selected)
      ensures r.Ok? ==> |items| == |old(items)| + 1 && items[..|old(items)|] == old(items)
                        && fresh(items[|old(items)|])
      ensures r.Ok? ==> Records() == old(Records()) + [r.value] && totalLabel == TotalText(Records())
      ensures r.Err? ==> items == old(items) && totalLabel == old(totalLabel)
    {
      r := AddedBill(date, name, details, costText, selected);
      if r.Err? {
        return;
      }
      var rec := r.value;
      var b := new Bill(rec.date, rec.name, rec.details, rec.cost, rec.category);
      Add(b);
      UpdateTotalCost();
    }

    /** `List.remove`: the first occurrence of the bill leaves the list. */
    method Remove(b: Bill)
      modifies this`items
      ensures items == RemoveFirst(old(items), b)
      ensures b !in old(items) ==> Records() == old(Records())
      ensures b in old(items) ==>
        var i := IndexOf(old(items), b);
        Records() == old(Records())[..i] + old(Records())[i + 1..]
    {
      if b in items {
        SnapshotsRemove(items, IndexOf(items, b));
      }
      items := RemoveFirst(items, b);
    }

    /** Delete in the edit dialog: the bill's first occurrence is removed and
        the total recomputed. */
    method Delete(b: Bill)
      modifies this`items, this`totalLabel
      ensures items == RemoveFirst(old(items), b)
      ensures b !in old(items) ==> Records() == old(Records())
      ensures b in old(items) ==>
        var i := IndexOf(old(items), b);
        Records() == old(Records())[..i] + old(Records())[i + 1..]
      ensures totalLabel == TotalText(Records())
    {
      Remove(b);
      UpdateTotalCost();
    }

    /** Save in the edit dialog: the five cells of the same bill object are
        overwritten in place and the total recomputed; the list itself (length,
        order, other bills) is untouched. An invalid input changes nothing. */
    method SaveEdit(b: Bill, date: string, name: string, details: string, costText: string, typeText: string)
      returns (r: Result<BillRecord, SaveError>)
      modifies b, this`totalLabel
      ensures r == EditedBill(date, name, details, costText, typeText)
      ensures items == old(items)
      ensures forall c :: c in items && c != b ==> c.Snap() == old(c.Snap())
      ensures r.Ok? ==> b.Snap() == r.value && totalLabel == TotalText(Records())
      ensures r.Err? ==> b.Snap() == old(b.Snap()) && totalLabel == old(totalLabel)
    {
      r := EditedBill(date, name, details, costText, typeText);
      if r.Ok? {
        b.Set(Date, r.value.date);
        b.Set(Name, r.value.name);
        b.Set(Details, r.value.details);
        b.Set(Cost, r.value.cost);
        b.Set(Type, r.value.category);
        UpdateTotalCost();
      }
    }

    /** Upload: the list is replaced wholesale by the imported bills (the empty
        list when the import fails) and the total recomputed. */
    method Import(text: string)
      modifies this
      ensures Records() == ImportText(text)
      ensures forall c :: c in items ==> fresh(c)
      ensures totalLabel == TotalText(Records())
    {
      var bills := ImportFromCsv(text);
      items := bills;
      UpdateTotalCost();
    }

    /** Download: the file name gets its ".csv" suffix and the file receives
        the export of the current list. */
    method Export(fileName: string) returns (path: string, text: string)
      ensures path == CsvFileName(fileName)
      ensures text == ExportText(Records())
    {
      path := CsvFileName(fileName);
      text := ExportToCsv(items);
    }
  }
}
