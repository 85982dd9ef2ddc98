/**
 * The Walmart-style receipt form: item rows with a name, an item code and a
 * price; a receipt generated from them on request, with a count of the items
 * sold, a 6.5% sales tax and the total; and a random receipt drawn from the
 * item catalog. Amounts are in cents; the tax and the total are exact `real`
 * cents, before the two-decimal rounding of the display.
 */
module WalmartReceipt {
  import opened Basics
  import opened Text
  import opened Catalog

  /** One `.item-row`: name, item code text, and the price input (None when its text is empty). */
  datatype Row = Row(name: string, code: string, price: Option<int>)

  /** One `.receipt-item`: the upper-cased name, the item code and the amount. */
  datatype Line = Line(description: string, code: string, amount: int)

  /** What a generated receipt shows. */
  datatype Receipt = Receipt(storeAddress: string, lines: seq<Line>, subtotal: int,
                             tax: real, total: real, paymentAmount: real, itemsSold: string)

  const TaxRate: real := 0.065

  /** `Math.floor(Math.random() * 900000000) + 100000000` lies in this range. */
  const MinItemCode: nat := 100000000
  const MaxItemCode: nat := 999999999

  /** `parseFloat(price) || 0`: an empty price input counts as zero. */
  function ParsedPrice(r: Row): int {
    r.price.GetOr(0)
  }

  /** A row is on the receipt when it has a name and a price above zero. */
  predicate Included(r: Row) {
    r.name != "" && ParsedPrice(r) > 0
  }

  function LineOf(r: Row): Line
    requires Included(r)
  {
    Line(ToUpper(r.name), r.code, ParsedPrice(r))
  }

  /** The receipt lines: one per included row, in row order. */
  function Lines(rows: seq<Row>): (lines: seq<Line>)
    ensures |lines| <= |rows|
  {
    if rows == [] then []
    else
      var last := rows[|rows| - 1];
      Lines(rows[..|rows| - 1]) + (if Included(last) then [LineOf(last)] else [])
  }

  /** The sum of the prices of the included rows. */
  function Subtotal(rows: seq<Row>): int {
    if rows == [] then 0
    else
      var last := rows[|rows| - 1];
      Subtotal(rows[..|rows| - 1]) + (if Included(last) then ParsedPrice(last) else 0)
  }

  /** The number of included rows. */
  function ItemCount(rows: seq<Row>): nat {
    if rows == [] then 0
    else ItemCount(rows[..|rows| - 1]) + (if Included(rows[|rows| - 1]) then 1 else 0)
  }

  function SumAmounts(lines: seq<Line>): int {
    if lines == [] then 0 else SumAmounts(lines[..|lines| - 1]) + lines[|lines| - 1].amount
  }

  function Tax(subtotal: int): (tax: real)
    ensures subtotal >= 0 ==> 0.0 <= tax <= subtotal as real
  {
    subtotal as real * TaxRate
  }

  /** The receipt generated from the rows and the store fields. */
  function Render(rows: seq<Row>, storeNumber: string, storeLocation: string): Receipt {
    var subtotal := Subtotal(rows);
    var tax := Tax(subtotal);
    var total := subtotal as real + tax;
    Receipt(storeNumber + " " + storeLocation, Lines(rows), subtotal, tax, total, total,
            "# ITEMS SOLD " + NatToString(ItemCount(rows)))
  }

  /** The forEach of `generateReceipt`: subtotal, item count and lines accumulated over the rows. */
  method Tally(rows: seq<Row>) returns (lines: seq<Line>, subtotal: int, itemCount: nat)
    ensures lines == Lines(rows) && subtotal == Subtotal(rows) && itemCount == ItemCount(rows)
  {
    lines, subtotal, itemCount := [], 0, 0;
    var i := 0;
    while i < |rows|
      invariant 0 <= i <= |rows|
      invariant lines == Lines(rows[..i]) && subtotal == Subtotal(rows[..i]) && itemCount == ItemCount(rows[..i])
    {
      var row := rows[i];
      var price := row.price.GetOr(0);
      if row.name != "" && price > 0 {
        lines := lines + [Line(ToUpper(row.name), row.code, price)];
        subtotal := subtotal + price;
        itemCount := itemCount + 1;
      }
      assert rows[..i + 1][..i] == rows[..i];
      i := i + 1;
    }
    assert rows[..|rows|] == rows;
  }

  /** Lines, subtotal and count of a concatenation are those of its parts. */
  lemma {:induction false} TallyAppend(a: seq<Row>, b: seq<Row>)
    ensures Lines(a + b) == Lines(a) + Lines(b)
    ensures Subtotal(a + b) == Subtotal(a) + Subtotal(b)
    ensures ItemCount(a + b) == ItemCount(a) + ItemCount(b)
    decreases |b|
  {
    if b == [] {
      assert a + b == a;
    } else {
      var b' := b[..|b| - 1];
      assert (a + b)[..|a + b| - 1] == a + b';
      TallyAppend(a, b');
    }
  }

  /** The subtotal is the sum of the line amounts and the item count is the number of lines. */
  lemma {:induction false} SubtotalAndCountMatchLines(rows: seq<Row>)
    ensures Subtotal(rows) == SumAmounts(Lines(rows))
    ensures ItemCount(rows) == |Lines(rows)|
    decreases |rows|
  {
    if rows != [] {
      var init := rows[..|rows| - 1];
      var last := rows[|rows| - 1];
      SubtotalAndCountMatchLines(init);
      if Included(last) {
        var ls := Lines(init) + [LineOf(last)];
        assert ls[..|ls| - 1] == Lines(init);
      } else {
        assert Lines(rows) == Lines(init);
      }
    }
  }

  /** Every counted item costs at least a cent, so the subtotal is positive exactly when an item is counted. */
  lemma {:induction false} SubtotalCoversCount(rows: seq<Row>)
    ensures Subtotal(rows) >= ItemCount(rows)
    ensures Subtotal(rows) > 0 <==> ItemCount(rows) > 0
    decreases |rows|
  {
    if rows != [] {
      SubtotalCoversCount(rows[..|rows| - 1]);
    }
  }

  /** A row without a name, with an empty price or with a price of zero or less adds nothing, wherever it stands. */
  lemma {:induction false} ExcludedRowIsInvisible(a: seq<Row>, r: Row, b: seq<Row>)
    requires r.name == "" || r.price.None? || r.price.value <= 0
    ensures Lines(a + [r] + b) == Lines(a + b)
    ensures Subtotal(a + [r] + b) == Subtotal(a + b)
    ensures ItemCount(a + [r] + b) == ItemCount(a + b)
  {
    TallyAppend(a + [r], b);
    TallyAppend(a, [r]);
    TallyAppend(a, b);
    assert [r][..0] == [];
  }

  /** Tax is 6.5% of the subtotal, the total is the subtotal plus tax, and the payment shown is the total. */
  lemma ReceiptTotals(rows: seq<Row>, storeNumber: string, storeLocation: string)
    ensures var r := Render(rows, storeNumber, storeLocation);
            r.subtotal >= 0 && r.tax == r.subtotal as real * 0.065 && r.tax >= 0.0 &&
            r.total == r.subtotal as real * 1.065 && r.total >= r.subtotal as real &&
            r.paymentAmount == r.total &&
            r.itemsSold == "# ITEMS SOLD " + NatToString(|r.lines|)
  {
    SubtotalCoversCount(rows);
    SubtotalAndCountMatchLines(rows);
  }

  /** A subtotal of $100.00 gives $6.50 tax and a $106.50 total. */
  lemma TaxExample()
    ensures Tax(10000) == 650.0 && 10000 as real + Tax(10000) == 10650.0
  {
  }

  /** The rows of a random receipt: each selected item with its own item code. */
  function GeneratedRows(items: seq<PoolItem>, codes: seq<nat>): (rows: seq<Row>)
    requires |codes| >= |items|
    ensures |rows| == |items|
  {
    seq(|items|, k requires 0 <= k < |items| => Row(items[k].name, NatToString(codes[k]), items[k].price))
  }

  predicate IsItemCode(c: nat) {
    MinItemCode <= c <= MaxItemCode
  }

  /**
   * The rows of a random receipt: their number is the drawn count capped by
   * the pool size, each comes from a distinct pool entry with its name and
   * price, and each code is a nine-digit number in the item-code range.
   */
  lemma GeneratedRowsFacts(pool: seq<PoolItem>, perm: seq<nat>, n: nat, codes: seq<nat>)
    requires IsPermutation(perm, |pool|) && MinItems <= n <= MaxItems
    requires |codes| >= n && forall k :: 0 <= k < |codes| ==> IsItemCode(codes[k])
    ensures var sel := Select(pool, perm, n);
            var rows := GeneratedRows(sel, codes);
            |rows| == Min(n, |pool|) && |rows| <= MaxItems &&
            (|pool| >= MinItems ==> |rows| >= MinItems) &&
            multiset(sel) <= multiset(pool) &&
            (forall k :: 0 <= k < |rows| ==> sel[k] in pool && rows[k].name == sel[k].name && rows[k].price == sel[k].price) &&
            (forall k :: 0 <= k < |rows| ==>
               |rows[k].code| == 9 && AllDigits(rows[k].code) && IsItemCode(DecimalValue(rows[k].code)))
  {
    var sel := Select(pool, perm, n);
    SelectFromPool(pool, perm, n);
    var rows := GeneratedRows(sel, codes);
    forall k | 0 <= k < |rows|
      ensures |rows[k].code| == 9 && AllDigits(rows[k].code) && IsItemCode(DecimalValue(rows[k].code))
    {
      assert Pow10(8) == MinItemCode && Pow10(9) == MaxItemCode + 1;
      NatToStringLength(codes[k], 9);
      NatToStringRoundTrip(codes[k]);
    }
  }

  /** The outcome of `fetch` and `response.json()`: a network or parse failure, or the parsed document. */
  datatype Fetched = FetchFailed | Loaded(doc: CatalogDoc)

  /** The pool the catalog yields, when the document has its `target_items`. */
  function PoolOf(f: Fetched): Option<seq<PoolItem>> {
    if f.Loaded? && f.doc.targetItems.Some? then Some(Flatten(f.doc.targetItems.value)) else None
  }

  /** A change the user types into the form; no handler regenerates the receipt on it. */
  datatype Edit =
    | EditName(row: nat, name: string)
    | EditCode(row: nat, code: string)
    | EditPrice(row: nat, price: Option<int>)
    | EditStoreNumber(storeNumber: string)
    | EditStoreLocation(storeLocation: string)

  /** The form: store fields, item rows and the generated receipt. */
  class Form {
    var rows: seq<Row>
    var storeNumber: string
    var storeLocation: string
    /** None until a receipt has been generated: the page shows its static preview. */
    var receipt: Option<Receipt>

    /** Page load: the rows and store fields the page comes with; nothing is generated yet. */
    constructor (rows0: seq<Row>, storeNumber0: string, storeLocation0: string)
      ensures rows == rows0 && storeNumber == storeNumber0 && storeLocation == storeLocation0
      ensures receipt == None
    {
      rows, storeNumber, storeLocation := rows0, storeNumber0, storeLocation0;
      receipt := None;
    }

    /** Appends one blank row (no name, no code, no price); no receipt is generated. */
    method AddItem()
      modifies this`rows
      ensures rows == old(rows) + [Row("", "", None)]
    {
      rows := rows + [Row("", "", None)];
    }

    /** A click on the remove button of row `i`: the row goes, however few rows are left. */
    method ClickRemove(i: nat)
      requires i < |rows|
      modifies this`rows
      ensures rows == old(rows[..i] + rows[i + 1..])
      ensures |rows| == |old(rows)| - 1
    {
      rows := rows[..i] + rows[i + 1..];
    }

    /** A field changes; the receipt stays as it was. */
    method Input(e: Edit)
      requires (e.EditName? || e.EditCode? || e.EditPrice?) ==> e.row < |rows|
      modifies this`rows, this`storeNumber, this`storeLocation
      ensures match e
              case EditName(i, n) =>
                rows == old(rows)[i := old(rows)[i].(name := n)] && unchanged(this`storeNumber, this`storeLocation)
              case EditCode(i, c) =>
                rows == old(rows)[i := old(rows)[i].(code := c)] && unchanged(this`storeNumber, this`storeLocation)
              case EditPrice(i, p) =>
                rows == old(rows)[i := old(rows)[i].(price := p)] && unchanged(this`storeNumber, this`storeLocation)
              case EditStoreNumber(s) => storeNumber == s && unchanged(this`rows, this`storeLocation)
              case EditStoreLocation(s) => storeLocation == s && unchanged(this`rows, this`storeNumber)
    {
      match e {
        case EditName(i, n) => rows := rows[i := rows[i].(name := n)];
        case EditCode(i, c) => rows := rows[i := rows[i].(code := c)];
        case EditPrice(i, p) => rows := rows[i := rows[i].(price := p)];
        case EditStoreNumber(s) => storeNumber := s;
        case EditStoreLocation(s) => storeLocation := s;
      }
    }

    /** `generateReceipt`: the receipt is derived afresh from the current rows and store fields. */
    method GenerateReceipt()
      modifies this`receipt
      ensures receipt == Some(Render(rows, storeNumber, storeLocation))
    {
      var lines, subtotal, itemCount := Tally(rows);
      var tax := subtotal as real * TaxRate;
      var total := subtotal as real + tax;
      receipt := Some(Receipt(storeNumber + " " + storeLocation, lines, subtotal, tax, total, total,
                              "# ITEMS SOLD " + NatToString(itemCount)));
    }

    /**
     * The random receipt. `n` is the drawn item count, `perm` the order the
     * shuffle puts the pool in, `codes` the drawn item codes. A failed fetch or
     * parse changes nothing; a document without `target_items` fails after the
     * rows were cleared; otherwise the rows become the selected items and the
     * receipt is generated.
     */
    method GenerateRandom(fetched: Fetched, n: nat, perm: seq<nat>, codes: seq<nat>) returns (loaded: bool)
      requires MinItems <= n <= MaxItems
      requires |codes| >= n && forall k :: 0 <= k < |codes| ==> IsItemCode(codes[k])
      requires PoolOf(fetched).Some? ==> IsPermutation(perm, |PoolOf(fetched).value|)
      modifies this`rows, this`receipt
      ensures loaded <==> PoolOf(fetched).Some?
      ensures fetched.FetchFailed? ==> rows == old(rows) && receipt == old(receipt)
      ensures fetched.Loaded? && !loaded ==> rows == [] && receipt == old(receipt)
      ensures loaded ==> rows == GeneratedRows(Select(PoolOf(fetched).value, perm, n), codes)
      ensures loaded ==> receipt == Some(Render(rows, storeNumber, storeLocation))
    {
      if fetched.FetchFailed? {
        return false;
      }
      rows := [];
      if fetched.doc.targetItems.None? {
        return false;
      }
      var pool := FlattenCatalog(fetched.doc.targetItems.value);
      var selected := Pick(pool, perm)[..Min(n, |pool|)];
      var k := 0;
      while k < |selected|
        invariant 0 <= k <= |selected|
        invariant rows == GeneratedRows(selected, codes)[..k]
      {
        rows := rows + [Row(selected[k].name, NatToString(codes[k]), selected[k].price)];
        k := k + 1;
      }
      GenerateReceipt();
      loaded := true;
    }
  }
}
