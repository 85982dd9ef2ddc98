/**
 * The Target-style receipt form: an ordered list of item rows edited by the
 * user and a receipt preview re-derived from scratch after every change.
 * Amounts are integers in cents; a price of `None` is a number input whose
 * text is empty (the browser empties a number input it cannot parse).
 */
module TargetReceipt {
  import opened Basics
  import opened Text

  /** One `.item-row`: the name input and the price input. */
  datatype Row = Row(name: string, price: Option<int>)

  /** One `.receipt-item`: the upper-cased description and the amount in cents. */
  datatype Line = Line(description: string, amount: int)

  type Month = m: nat | 1 <= m <= 12 witness 1
  type Day = d: nat | 1 <= d <= 31 witness 1

  /** The calendar fields `getFullYear`, `getMonth() + 1` and `getDate` of the chosen date. */
  datatype CalendarDate = CalendarDate(year: nat, month: Month, day: Day)

  /** What the preview shows apart from the date: store header, item lines and total. */
  datatype Receipt = Receipt(storeName: string, storeLocation: string, lines: seq<Line>, total: int)

  const DefaultStoreName: string := "TARGET"
  const DefaultStoreLocation: string := "NEW YORK"

  /** The three rows loaded when the page opens. */
  function SampleRows(): seq<Row> {
    [ Row("DOVE CREAM SERUM", Some(10000)),
      Row("BLUE BUFFALO DRY DOG FOOD", Some(8000)),
      Row("BASIL HAYDEN WHISKEY", Some(6800)) ]
  }

  /** An empty field is shown as the store's default text. */
  function OrDefault(field: string, default: string): (shown: string)
    ensures field == "" ==> shown == default
    ensures field != "" ==> shown == field
  {
    if field == "" then default else field
  }

  /** A row is on the receipt when both its name text and its price text are non-empty. */
  predicate Included(r: Row) {
    r.name != "" && r.price.Some?
  }

  function LineOf(r: Row): Line
    requires Included(r)
  {
    Line(ToUpper(r.name), r.price.value)
  }

  /** The receipt lines of `rows`: one per included row, in row order. */
  function Lines(rows: seq<Row>): (lines: seq<Line>)
    ensures |lines| <= |rows|
  {
    if rows == [] then []
    else
      var last := rows[|rows| - 1];
      Lines(rows[..|rows| - 1]) + (if Included(last) then [LineOf(last)] else [])
  }

  /** The receipt total of `rows`: the sum of the prices of the included rows. */
  function Total(rows: seq<Row>): int {
    if rows == [] then 0
    else
      var last := rows[|rows| - 1];
      Total(rows[..|rows| - 1]) + (if Included(last) then last.price.value else 0)
  }

  function SumAmounts(lines: seq<Line>): int {
    if lines == [] then 0 else SumAmounts(lines[..|lines| - 1]) + lines[|lines| - 1].amount
  }

  /** The receipt the preview shows for the given rows and header fields. */
  function Render(rows: seq<Row>, storeName: string, storeLocation: string): (r: Receipt)
    ensures r.storeName != "" && r.storeLocation != ""
  {
    Receipt(OrDefault(storeName, DefaultStoreName), OrDefault(storeLocation, DefaultStoreLocation),
            Lines(rows), Total(rows))
  }

  /** The date as shown: month and day padded to two digits, then the year. */
  function FormatDate(d: CalendarDate): string {
    PadStartTwo(NatToString(d.month)) + "/" + PadStartTwo(NatToString(d.day)) + "/" + NatToString(d.year)
  }

  /** The date text after a recompute: reformatted when the date field is set, otherwise kept. */
  function NextDateText(date: Option<CalendarDate>, shown: string): (next: string)
    ensures date.Some? ==> next == FormatDate(date.value)
    ensures date.None? ==> next == shown
  {
    match date
    case Some(d) => FormatDate(d)
    case None => shown
  }

  /** Recomputing again with the same fields leaves the date text as the first recompute set it. */
  lemma NextDateTextIdempotent(date: Option<CalendarDate>, shown: string)
    ensures NextDateText(date, NextDateText(date, shown)) == NextDateText(date, shown)
  {
  }

  /** The forEach of the recompute: a fresh total and line list accumulated over the rows. */
  method Tally(rows: seq<Row>) returns (lines: seq<Line>, total: int)
    ensures lines == Lines(rows) && total == Total(rows)
  {
    lines, total := [], 0;
    var i := 0;
    while i < |rows|
      invariant 0 <= i <= |rows|
      invariant lines == Lines(rows[..i]) && total == Total(rows[..i])
    {
      var row := rows[i];
      if row.name != "" && row.price.Some? {
        total := total + row.price.value;
        lines := lines + [Line(ToUpper(row.name), row.price.value)];
      }
      assert rows[..i + 1][..i] == rows[..i];
      i := i + 1;
    }
    assert rows[..|rows|] == rows;
  }

  /** The lines of a concatenation are the lines of each part, in order. */
  lemma {:induction false} LinesAppend(a: seq<Row>, b: seq<Row>)
    ensures Lines(a + b) == Lines(a) + Lines(b)
    ensures Total(a + b) == Total(a) + Total(b)
    decreases |b|
  {
    if b == [] {
      assert a + b == a;
    } else {
      var b' := b[..|b| - 1];
      assert (a + b)[..|a + b| - 1] == a + b';
      LinesAppend(a, b');
    }
  }

  /** The total is the sum of the amounts on the receipt lines. */
  lemma {:induction false} TotalIsSumOfLines(rows: seq<Row>)
    ensures Total(rows) == SumAmounts(Lines(rows))
    decreases |rows|
  {
    if rows != [] {
      var init := rows[..|rows| - 1];
      var last := rows[|rows| - 1];
      TotalIsSumOfLines(init);
      if Included(last) {
        var ls := Lines(init) + [LineOf(last)];
        assert ls[..|ls| - 1] == Lines(init);
      } else {
        assert Lines(rows) == Lines(init);
      }
    }
  }

  /** Each included row yields exactly one line, each excluded row none. */
  lemma {:induction false} LinesCount(rows: seq<Row>)
    ensures |Lines(rows)| == |set i | 0 <= i < |rows| && Included(rows[i])|
    decreases |rows|
  {
    if rows != [] {
      var init := rows[..|rows| - 1];
      LinesCount(init);
      var before := set i | 0 <= i < |init| && Included(init[i]);
      var now := set i | 0 <= i < |rows| && Included(rows[i]);
      if Included(rows[|rows| - 1]) {
        assert now == before + {|rows| - 1};
      } else {
        assert now == before;
      }
    }
  }

  /** A single row yields its line and its price when it is included, and nothing otherwise. */
  lemma {:induction false} LinesSingleton(r: Row)
    ensures Lines([r]) == if Included(r) then [LineOf(r)] else []
    ensures Total([r]) == if Included(r) then r.price.value else 0
  {
    assert [r][..0] == [];
  }

  /** A row that is not included contributes nothing, wherever it stands. */
  lemma {:induction false} ExcludedRowIsInvisible(a: seq<Row>, r: Row, b: seq<Row>)
    requires !Included(r)
    ensures Lines(a + [r] + b) == Lines(a + b)
    ensures Total(a + [r] + b) == Total(a + b)
  {
    LinesAppend(a + [r], b);
    LinesAppend(a, [r]);
    LinesAppend(a, b);
    LinesSingleton(r);
  }

  /** Removing row `i` takes exactly its line, if it has one, out of the receipt lines. */
  lemma {:induction false} RemoveRowLines(rows: seq<Row>, i: nat)
    requires i < |rows|
    ensures Lines(rows) == Lines(rows[..i]) + Lines([rows[i]]) + Lines(rows[i + 1..])
    ensures Lines(rows[..i] + rows[i + 1..]) == Lines(rows[..i]) + Lines(rows[i + 1..])
  {
    var a, r, b := rows[..i], rows[i], rows[i + 1..];
    assert rows == (a + [r]) + b;
    LinesAppend(a + [r], b);
    LinesAppend(a, [r]);
    LinesAppend(a, b);
  }

  /** Removing row `i` takes exactly its contribution out of the total. */
  lemma {:induction false} RemoveRowTotal(rows: seq<Row>, i: nat)
    requires i < |rows|
    ensures Total(rows) == Total(rows[..i] + rows[i + 1..]) + Total([rows[i]])
  {
    var a, r, b := rows[..i], rows[i], rows[i + 1..];
    assert rows == (a + [r]) + b;
    LinesAppend(a + [r], b);
    LinesAppend(a, [r]);
    LinesAppend(a, b);
  }

  /** The sample rows all appear on the receipt, in order, and add up to $248.00. */
  lemma SampleReceipt()
    ensures var s := SampleRows();
            Lines(s) == [LineOf(s[0]), LineOf(s[1]), LineOf(s[2])] && Total(s) == 24800
  {
    var s := SampleRows();
    assert s == [s[0]] + [s[1]] + [s[2]];
    LinesAppend([s[0]] + [s[1]], [s[2]]);
    LinesAppend([s[0]], [s[1]]);
    LinesSingleton(s[0]);
    LinesSingleton(s[1]);
    LinesSingleton(s[2]);
  }

  /** A row with a blank name or a blank price is left out of the total. */
  lemma PartialRowsExcluded()
    ensures Total([Row("Milk", Some(350)), Row("", Some(200)), Row("Bread", None)]) == 350
  {
    var s := [Row("Milk", Some(350)), Row("", Some(200)), Row("Bread", None)];
    assert s == [s[0]] + [s[1]] + [s[2]];
    LinesAppend([s[0]] + [s[1]], [s[2]]);
    LinesAppend([s[0]], [s[1]]);
    LinesSingleton(s[0]);
    LinesSingleton(s[1]);
    LinesSingleton(s[2]);
  }

  /** A month or a day renders to two digits that read back as the number. */
  lemma PaddedFieldRoundTrip(n: nat)
    requires 1 <= n <= 31
    ensures var p := PadStartTwo(NatToString(n));
            |p| == 2 && AllDigits(p) && DecimalValue(p) == n
  {
    NatToStringRoundTrip(n);
    if n >= 10 { NatToStringLength(n, 2); }
    PadStartTwoValue(NatToString(n));
  }

  lemma DateParts(m: string, d: string, y: string)
    requires |m| == 2 && |d| == 2
    ensures var s := m + "/" + d + "/" + y;
            |s| == 6 + |y| && s[..2] == m && s[2] == '/' && s[3..5] == d && s[5] == '/' && s[6..] == y
  {
    var s := m + "/" + d + "/" + y;
    var rest := d + "/" + y;
    assert s == (m + "/") + rest;
    assert rest[..2] == d;
  }

  /** The formatted date reads back as the month, the day and the year, separated by slashes. */
  lemma FormatDateRoundTrip(d: CalendarDate)
    ensures var s := FormatDate(d);
            |s| >= 7 && s[2] == '/' && s[5] == '/' &&
            AllDigits(s[..2]) && DecimalValue(s[..2]) == d.month &&
            AllDigits(s[3..5]) && DecimalValue(s[3..5]) == d.day &&
            AllDigits(s[6..]) && DecimalValue(s[6..]) == d.year
  {
    PaddedFieldRoundTrip(d.month);
    PaddedFieldRoundTrip(d.day);
    NatToStringRoundTrip(d.year);
    DateParts(PadStartTwo(NatToString(d.month)), PadStartTwo(NatToString(d.day)), NatToString(d.year));
  }

  /** A change the user types into the form. */
  datatype Edit =
    | EditName(row: nat, name: string)
    | EditPrice(row: nat, price: Option<int>)
    | EditStoreName(storeName: string)
    | EditStoreLocation(storeLocation: string)
    | EditDate(date: Option<CalendarDate>)

  /** The form: its fields, its item rows, and the preview derived from them. */
  class Form {
    var rows: seq<Row>
    var storeName: string
    var storeLocation: string
    var receiptDate: Option<CalendarDate>
    /** The preview's store header, lines and total. */
    var receipt: Receipt
    /** The preview's `.receipt-date` text. */
    var dateText: string

    /** There is always at least one row to edit. */
    ghost predicate Valid()
      reads this
    {
      |rows| >= 1
    }

    /** Page load: today's date, the sample rows, and a first recompute. */
    constructor (storeName0: string, storeLocation0: string, today: CalendarDate)
      ensures Valid()
      ensures rows == SampleRows()
      ensures storeName == storeName0 && storeLocation == storeLocation0 && receiptDate == Some(today)
      ensures receipt == Render(rows, storeName, storeLocation)
      ensures dateText == FormatDate(today)
    {
      rows := [];
      storeName, storeLocation := storeName0, storeLocation0;
      receiptDate := Some(today);
      receipt := Receipt("", "", [], 0);
      dateText := "";
      new;
      AddSampleItems();
      assert storeName == storeName0 && storeLocation == storeLocation0 && receiptDate == Some(today);
      UpdateReceipt();
    }

    /** Appends one row, blank unless a name and price are given; the preview is not recomputed. */
    method AddItemRow(name: string := "", price: Option<int> := None)
      modifies this`rows
      ensures rows == old(rows) + [Row(name, price)]
      ensures old(Valid()) ==> Valid()
    {
      rows := rows + [Row(name, price)];
    }

    /** Clears the rows and loads the three sample rows, whatever the list held before. */
    method AddSampleItems()
      modifies this`rows
      ensures rows == SampleRows()
      ensures Valid()
    {
      rows := [];
      AddItemRow("DOVE CREAM SERUM", Some(10000));
      AddItemRow("BLUE BUFFALO DRY DOG FOOD", Some(8000));
      AddItemRow("BASIL HAYDEN WHISKEY", Some(6800));
    }

    /**
     * Recomputes the preview from scratch: store defaults, the lines and the total
     * of the current rows, and the date text when the date field is set.
     */
    method UpdateReceipt()
      modifies this`receipt, this`dateText
      ensures receipt == Render(rows, storeName, storeLocation)
      ensures dateText == NextDateText(receiptDate, old(dateText))
    {
      var name := OrDefault(storeName, DefaultStoreName);
      var location := OrDefault(storeLocation, DefaultStoreLocation);
      var lines, total := Tally(rows);
      receipt := Receipt(name, location, lines, total);
      dateText := NextDateText(receiptDate, dateText);
    }

    /**
     * A click on the remove button of row `i`: the row goes, and the preview is
     * recomputed, only when it is not the last row left.
     */
    method ClickRemove(i: nat) returns (removed: bool)
      requires Valid() && i < |rows|
      modifies this`rows, this`receipt, this`dateText
      ensures Valid()
      ensures removed <==> |old(rows)| > 1
      ensures removed ==> rows == old(rows[..i] + rows[i + 1..])
      ensures removed ==> receipt == Render(rows, storeName, storeLocation)
                          && dateText == NextDateText(receiptDate, old(dateText))
      ensures !removed ==> rows == old(rows) && receipt == old(receipt) && dateText == old(dateText)
    {
      removed := |rows| > 1;
      if removed {
        rows := rows[..i] + rows[i + 1..];
        UpdateReceipt();
      }
    }

    /** An input event: one field changes, then the preview is recomputed. */
    method Input(e: Edit)
      requires Valid()
      requires (e.EditName? || e.EditPrice?) ==> e.row < |rows|
      modifies this
      ensures Valid()
      ensures match e
              case EditName(i, n) =>
                rows == old(rows)[i := Row(n, old(rows)[i].price)] && unchanged(this`storeName, this`storeLocation, this`receiptDate)
              case EditPrice(i, p) =>
                rows == old(rows)[i := Row(old(rows)[i].name, p)] && unchanged(this`storeName, this`storeLocation, this`receiptDate)
              case EditStoreName(s) =>
                storeName == s && unchanged(this`rows, this`storeLocation, this`receiptDate)
              case EditStoreLocation(s) =>
                storeLocation == s && unchanged(this`rows, this`storeName, this`receiptDate)
              case EditDate(d) =>
                receiptDate == d && unchanged(this`rows, this`storeName, this`storeLocation)
      ensures receipt == Render(rows, storeName, storeLocation)
      ensures dateText == NextDateText(receiptDate, old(dateText))
    {
      match e {
        case EditName(i, n) => rows := rows[i := Row(n, rows[i].price)];
        case EditPrice(i, p) => rows := rows[i := Row(rows[i].name, p)];
        case EditStoreName(s) => storeName := s;
        case EditStoreLocation(s) => storeLocation := s;
        case EditDate(d) => receiptDate := d;
      }
      UpdateReceipt();
    }
  }
}
