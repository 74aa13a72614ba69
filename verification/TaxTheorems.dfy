/** Conservation, error bounds and agreement of the tax calculations, in integers. */
module TaxTheorems {
  import opened Common
  import opened Tax

  // ----- Rounding -----------------------------------------------------------------------------

  /** Half up is the nearest: never more than half a unit away. */
  lemma RoundIsNearest(n: int, d: int)
    requires d > 0
    ensures -d < 2 * (RoundDiv(n, d) * d - n) <= d
  {
    var q := RoundDiv(n, d);
    var r := (2 * n + d) % (2 * d);
    assert 2 * n + d == q * (2 * d) + r;
    assert q * (2 * d) == 2 * (q * d);
  }

  lemma RoundGrows(m: int, n: int, d: int)
    requires d > 0 && m <= n
    ensures RoundDiv(m, d) <= RoundDiv(n, d)
  {
    RoundIsNearest(m, d);
    RoundIsNearest(n, d);
    if RoundDiv(m, d) > RoundDiv(n, d) {
      Distribute(RoundDiv(m, d), RoundDiv(n, d), d);
      assert false;
    }
  }

  lemma Distribute(a: int, b: int, d: int)
    requires d > 0 && a > b
    ensures a * d >= b * d + d
  {
    assert (a - b - 1) * d >= 0;
    assert a * d == b * d + d + (a - b - 1) * d;
  }

  // ----- One line -----------------------------------------------------------------------------

  function Abs(x: int): int {
    if x < 0 then -x else x
  }

  /** The exact value of a line in 1/10000 cent. */
  function Value(item: Item): int {
    item.quantity * item.unitPrice
  }

  /** An accepted line: total conserved, each rounding off by half a cent at most. */
  predicate GoodLine(item: Item, line: Line) {
    && line.quantity == item.quantity && line.unitPrice == item.unitPrice
    && line.total == line.subtotal + line.tax
    && 0 <= line.subtotal && 0 <= line.tax && line.total <= MAX_AMOUNT
    && Abs(10_000 * line.subtotal - Value(item)) <= 5_000
    && Abs(100 * line.tax - 18 * line.subtotal) <= 50
    && Abs(100 * line.unitPriceWithTax - 118 * item.unitPrice) <= 50
  }

  lemma LinesAreGood(item: Item)
    ensures CalculateItem(item).Some? ==> GoodLine(item, CalculateItem(item).value)
  {
    if CalculateItem(item).Some? {
      var line := CalculateItem(item).value;
      PositiveProduct(item.quantity, item.unitPrice);
      RoundIsNearest(Value(item), 10_000);
      RoundIsNearest(line.subtotal * 18, 100);
      RoundIsNearest(item.unitPrice * 118, 100);
    }
  }

  /** n / d rounded half up is r. */
  predicate RoundsTo(n: int, d: int, r: int) {
    -d < 2 * (r * d - n) <= d
  }

  lemma RoundsToIff(n: int, d: int, r: int)
    requires d > 0
    ensures RoundDiv(n, d) == r <==> RoundsTo(n, d, r)
  {
    RoundIsNearest(n, d);
    var q := RoundDiv(n, d);
    if q > r { Distribute(q, r, d); }
    if r > q { Distribute(r, q, d); }
  }

  /** An item is accepted, with these amounts, if and only if quantity and price are positive and within their
      limits and the rounded amounts are these and come to no more than 999999999999.99. */
  lemma LineIff(item: Item, gross: int, subtotal: int, tax: int)
    ensures CalculateItem(item) == Some(Line(item.quantity, item.unitPrice, gross, subtotal, tax, subtotal + tax)) <==>
              && 0 < item.quantity <= 99_999_999_999_999 && 0 < item.unitPrice <= 99_999_999_999_999
              && RoundsTo(item.quantity * item.unitPrice, 10_000, subtotal) && RoundsTo(18 * subtotal, 100, tax)
              && subtotal + tax <= 99_999_999_999_999 && RoundsTo(118 * item.unitPrice, 100, gross)
  {
    RoundsToIff(item.quantity * item.unitPrice, 10_000, subtotal);
    RoundsToIff(18 * subtotal, 100, tax);
    RoundsToIff(118 * item.unitPrice, 100, gross);
    if 0 < item.quantity && 0 < item.unitPrice { PositiveProduct(item.quantity, item.unitPrice); }
  }

  /** An item is refused only for a quantity or a price out of its limits or for a total above the limit. */
  lemma AcceptedIff(item: Item)
    ensures CalculateItem(item).Some? <==>
              && 0 < item.quantity <= 99_999_999_999_999 && 0 < item.unitPrice <= 99_999_999_999_999
              && exists subtotal, tax ::
                   && RoundsTo(item.quantity * item.unitPrice, 10_000, subtotal) && RoundsTo(18 * subtotal, 100, tax)
                   && subtotal + tax <= 99_999_999_999_999
  {
    var subtotal := RoundDiv(item.quantity * item.unitPrice, 10_000);
    var tax, gross := RoundDiv(18 * subtotal, 100), RoundDiv(118 * item.unitPrice, 100);
    RoundsToIff(item.quantity * item.unitPrice, 10_000, subtotal);
    RoundsToIff(18 * subtotal, 100, tax);
    RoundsToIff(118 * item.unitPrice, 100, gross);
    LineIff(item, gross, subtotal, tax);
    forall subtotal', tax' | RoundsTo(item.quantity * item.unitPrice, 10_000, subtotal')
                             && RoundsTo(18 * subtotal', 100, tax')
      ensures subtotal' == subtotal && tax' == tax
    {
      RoundsToIff(item.quantity * item.unitPrice, 10_000, subtotal');
      RoundsToIff(18 * subtotal', 100, tax');
    }
  }

  lemma PositiveProduct(a: int, b: int)
    requires a > 0 && b > 0
    ensures a * b > 0
  {
  }

  // ----- Documents ----------------------------------------------------------------------------

  function TotalValue(items: seq<Item>): int {
    if items == [] then 0 else Value(items[0]) + TotalValue(items[1..])
  }

  /** n times half a cent from the exact value, and from 18 % of the subtotal. */
  predicate Within(n: nat, value: int, subtotal: int, tax: int) {
    && subtotal >= 0 && tax >= 0
    && Abs(10_000 * subtotal - value) <= 5_000 * n
    && Abs(100 * tax - 18 * subtotal) <= 50 * n
  }

  /** Sums of lines stay within n times the bounds of one line. */
  predicate Bounded(items: seq<Item>, subtotal: int, tax: int, total: int) {
    && total == subtotal + tax
    && Within(|items|, TotalValue(items), subtotal, tax)
    && Abs(1_000_000 * total - 118 * TotalValue(items)) <= 1_090_000 * |items|
  }

  lemma OneMoreLine(line: Line, item: Item, n: nat, value: int, subtotal: int, tax: int)
    requires GoodLine(item, line) && Within(n, value, subtotal, tax)
    ensures Within(n + 1, Value(item) + value, line.subtotal + subtotal, line.tax + tax)
  {
  }

  /** The bound on the total follows from the other two. */
  lemma TotalBound(n: nat, value: int, subtotal: int, tax: int)
    requires Within(n, value, subtotal, tax)
    ensures Abs(1_000_000 * (subtotal + tax) - 118 * value) <= 1_090_000 * n
  {
  }

  lemma {:induction false} LinesAreWithin(items: seq<Item>)
    requires CalculateLines(items).Some?
    ensures var lines := CalculateLines(items).value;
            && |lines| == |items|
            && Within(|items|, TotalValue(items), SumSubtotals(lines), SumTaxes(lines))
            && SumTotals(lines) == SumSubtotals(lines) + SumTaxes(lines)
  {
    if items != [] {
      LinesAreWithin(items[1..]);
      LinesAreGood(items[0]);
      var lines := CalculateLines(items).value;
      assert lines[1..] == CalculateLines(items[1..]).value;
      OneMoreLine(lines[0], items[0], |items| - 1, TotalValue(items[1..]), SumSubtotals(lines[1..]),
                  SumTaxes(lines[1..]));
    }
  }

  lemma LinesAreBounded(items: seq<Item>)
    requires CalculateLines(items).Some?
    ensures var lines := CalculateLines(items).value;
            |lines| == |items| && Bounded(items, SumSubtotals(lines), SumTaxes(lines), SumTotals(lines))
  {
    LinesAreWithin(items);
    var lines := CalculateLines(items).value;
    TotalBound(|items|, TotalValue(items), SumSubtotals(lines), SumTaxes(lines));
  }

  /** For n accepted items: total = subtotal + tax, the subtotal is within n/2 cents of the exact value, the
      tax within n/2 cents of 18 % of the subtotal, the total within 1.09 n cents of 118 % of the exact
      value. */
  lemma DocumentIsBounded(items: seq<Item>)
    ensures CalculateDocument(items).Some? ==>
              var d := CalculateDocument(items).value;
              |d.lines| == |items| && Bounded(items, d.subtotal, d.tax, d.total)
  {
    if CalculateDocument(items).Some? { LinesAreBounded(items); }
  }

  // ----- Order of lines -----------------------------------------------------------------------

  function Remove(items: seq<Item>, k: nat): seq<Item>
    requires k < |items|
  {
    items[..k] + items[k + 1..]
  }

  /** The sums if every item is accepted. */
  function Sums(items: seq<Item>): Option<Amounts> {
    var lines := CalculateLines(items);
    if lines.None? then None
    else Some(Amounts(SumSubtotals(lines.value), SumTaxes(lines.value), SumTotals(lines.value)))
  }

  function Plus(item: Item, sums: Option<Amounts>): Option<Amounts> {
    var line := CalculateItem(item);
    if line.None? || sums.None? then None
    else Some(Amounts(line.value.subtotal + sums.value.subtotal, line.value.tax + sums.value.tax,
                      line.value.total + sums.value.total))
  }

  lemma SumsUnfold(items: seq<Item>)
    requires items != []
    ensures Sums(items) == Plus(items[0], Sums(items[1..]))
  {
    if CalculateLines(items).Some? {
      assert CalculateLines(items).value[1..] == CalculateLines(items[1..]).value;
    }
  }

  lemma {:induction false} TakeOut(items: seq<Item>, k: nat)
    requires k < |items|
    ensures Sums(items) == Plus(items[k], Sums(Remove(items, k)))
  {
    SumsUnfold(items);
    if k == 0 {
      assert Remove(items, 0) == items[1..];
    } else {
      TakeOut(items[1..], k - 1);
      var rest := Remove(items, k);
      SumsUnfold(rest);
      assert rest[1..] == Remove(items[1..], k - 1);
    }
  }

  lemma RemoveFromMultiset(items: seq<Item>, k: nat)
    requires k < |items|
    ensures multiset(Remove(items, k)) == multiset(items) - multiset{items[k]}
  {
    assert items == items[..k] + [items[k]] + items[k + 1..];
  }

  lemma {:induction false} SumsPermute(xs: seq<Item>, ys: seq<Item>)
    requires multiset(xs) == multiset(ys)
    ensures Sums(xs) == Sums(ys) && |xs| == |ys|
    decreases |xs|
  {
    assert |multiset(xs)| == |xs| && |multiset(ys)| == |ys|;
    if xs != [] {
      assert xs[0] in multiset(ys);
      var k :| 0 <= k < |ys| && ys[k] == xs[0];
      RemoveFromMultiset(xs, 0);
      RemoveFromMultiset(ys, k);
      SumsPermute(Remove(xs, 0), Remove(ys, k));
      TakeOut(xs, 0);
      TakeOut(ys, k);
    } else {
      assert ys == [];
    }
  }

  /** Reordering the items changes neither acceptance nor any document amount. */
  lemma {:induction false} OrderDoesNotMatter(xs: seq<Item>, ys: seq<Item>)
    requires multiset(xs) == multiset(ys)
    ensures var d, e := CalculateDocument(xs), CalculateDocument(ys);
            && d.Some? == e.Some?
            && (d.Some? ==>
                  && d.value.subtotal == e.value.subtotal && d.value.tax == e.value.tax
                  && d.value.total == e.value.total)
  {
    SumsPermute(xs, ys);
  }

  // ----- Growing quantities -------------------------------------------------------------------

  lemma ValueGrows(a: int, b: int, price: int)
    requires a <= b && price > 0
    ensures a * price <= b * price
  {
    assert (b - a) * price >= 0;
  }

  lemma LineGrows(item: Item, quantity: int)
    requires item.quantity <= quantity && CalculateItem(item).Some? && CalculateItem(item.(quantity := quantity)).Some?
    ensures var a, b := CalculateItem(item).value, CalculateItem(item.(quantity := quantity)).value;
            a.subtotal <= b.subtotal && a.tax <= b.tax && a.total <= b.total
  {
    var a, b := CalculateItem(item).value, CalculateItem(item.(quantity := quantity)).value;
    ValueGrows(item.quantity, quantity, item.unitPrice);
    RoundGrows(item.quantity * item.unitPrice, quantity * item.unitPrice, 10_000);
    RoundGrows(a.subtotal * 18, b.subtotal * 18, 100);
  }

  /** Raising one quantity, as long as the document is accepted, lowers no amount. */
  lemma MoreIsNotCheaper(items: seq<Item>, k: nat, quantity: int)
    requires k < |items| && items[k].quantity <= quantity
    ensures var d, e := CalculateDocument(items), CalculateDocument(items[k := items[k].(quantity := quantity)]);
            d.Some? && e.Some? ==>
              d.value.subtotal <= e.value.subtotal && d.value.tax <= e.value.tax && d.value.total <= e.value.total
  {
    var items' := items[k := items[k].(quantity := quantity)];
    TakeOut(items, k);
    TakeOut(items', k);
    assert Remove(items, k) == Remove(items', k);
    if CalculateDocument(items).Some? && CalculateDocument(items').Some? { LineGrows(items[k], quantity); }
  }

  // ----- The inline calculation ---------------------------------------------------------------

  /** On items that the tax service accepts, the inline calculation gives every line the same amounts. */
  lemma InlineLineAgrees(item: Item)
    ensures CalculateItem(item).Some? ==>
              var line := CalculateItem(item).value;
              InlineItem(item) == Amounts(line.subtotal, line.tax, line.total)
  {
  }

  /** ... and the document the same sums, for any number of items; the service's own limit on the sums is
      the only difference. */
  lemma {:induction false} InlineDocumentAgrees(items: seq<Item>)
    ensures Sums(items).Some? ==> InlineDocument(items) == Sums(items).value
    ensures CalculateDocument(items).Some? ==>
              var d := CalculateDocument(items).value;
              InlineDocument(items) == Amounts(d.subtotal, d.tax, d.total)
  {
    if items != [] {
      InlineDocumentAgrees(items[1..]);
      SumsUnfold(items);
      InlineLineAgrees(items[0]);
      LinesAreGood(items[0]);
    }
  }

  /** A document is accepted if and only if it has items, every item is accepted, and the sum of all amounts does
      not exceed 999999999999.99. */
  lemma DocumentAcceptedIff(items: seq<Item>)
    ensures CalculateDocument(items).Some? <==>
              && items != [] && (forall k :: 0 <= k < |items| ==> CalculateItem(items[k]).Some?)
              && InlineSubtotal(items) + InlineTax(items) <= 99_999_999_999_999
  {
    LinesAcceptedIff(items);
    if CalculateLines(items).Some? {
      InlineDocumentAgrees(items);
      LinesAreWithin(items);
    }
  }

  lemma {:induction false} LinesAcceptedIff(items: seq<Item>)
    ensures CalculateLines(items).Some? <==> forall k :: 0 <= k < |items| ==> CalculateItem(items[k]).Some?
  {
    if items != [] {
      LinesAcceptedIff(items[1..]);
      assert forall k :: 1 <= k < |items| ==> items[k] == items[1..][k - 1];
      assert forall k :: 0 <= k < |items[1..]| ==> items[1..][k] == items[k + 1];
    }
  }

  /** `printed` is quantity times printed price, `value` quantity times unit price. */
  lemma PriceBound(quantity: int, printed: int, total: int, subtotal: int, tax: int, value: int)
    requires -quantity < 2 * (printed - total * 10_000) <= quantity && total == subtotal + tax
    requires Abs(10_000 * subtotal - value) <= 5_000 && Abs(100 * tax - 18 * subtotal) <= 50
    ensures Abs(100 * printed - 118 * value) <= 50 * quantity + 1_090_000
  {
  }

  lemma PrintedRounds(line: Line)
    requires line.quantity > 0
    ensures -line.quantity < 2 * (line.quantity * PrintedUnitPrice(line) - line.total * 10_000) <= line.quantity
  {
    RoundIsNearest(line.total * 10_000, line.quantity);
  }

  /** The printed unit price is within 0.5 + 1.09 / q cents of 118 % of the unit price, q being the quantity;
      here multiplied by 100 times the quantity in 1/10000. */
  predicate PriceIsClose(line: Line)
    requires line.quantity > 0
  {
    Abs(100 * (line.quantity * PrintedUnitPrice(line)) - 118 * (line.quantity * line.unitPrice))
    <= 50 * line.quantity + 1_090_000
  }

  lemma GoodLinePrintsClose(item: Item, line: Line)
    requires line.quantity > 0 && GoodLine(item, line)
    ensures PriceIsClose(line)
  {
    PrintedRounds(line);
    PriceBound(line.quantity, line.quantity * PrintedUnitPrice(line), line.total, line.subtotal, line.tax, Value(item));
  }

  lemma PrintedPriceIsClose(item: Item)
    ensures CalculateItem(item).Some? ==>
              CalculateItem(item).value.quantity > 0 && PriceIsClose(CalculateItem(item).value)
  {
    LinesAreGood(item);
    if CalculateItem(item).Some? { GoodLinePrintsClose(item, CalculateItem(item).value); }
  }

  // ----- Twenty significant digits ------------------------------------------------------------

  lemma {:induction false} DigitsBound(x: nat)
    ensures x < Pow10(DigitCount(x)) && (x > 0 ==> Pow10(DigitCount(x) - 1) <= x)
  {
    if x >= 10 { DigitsBound(x / 10); }
  }

  lemma {:induction false} Pow10Grows(j: nat, k: nat)
    requires j <= k
    ensures Pow10(j) <= Pow10(k)
  {
    if j < k { Pow10Grows(j, k - 1); }
  }

  lemma {:induction false} Pow10Adds(j: nat, k: nat)
    ensures Pow10(j + k) == Pow10(j) * Pow10(k)
  {
    if k > 0 {
      Pow10Adds(j, k - 1);
      assert Pow10(j + k) == 10 * Pow10(j + (k - 1));
      assert 10 * (Pow10(j) * Pow10(k - 1)) == Pow10(j) * (10 * Pow10(k - 1));
    }
  }

  lemma TwentyDigits()
    ensures Pow10(19) == 10_000_000_000_000_000_000
  {
    Pow10Adds(10, 9);
    assert Pow10(5) == 100_000;
    Pow10Adds(5, 5);
    assert Pow10(4) == 10_000;
    Pow10Adds(5, 4);
  }

  /** Rounding to 20 digits leaves shorter numbers alone and keeps longer ones above 10^19. */
  lemma SignificantKeeps(x: nat)
    ensures Significant(x) == x || (x >= Pow10(19) && Significant(x) >= Pow10(19))
  {
    var k := DigitCount(x) - 20;
    if k > 0 {
      DigitsBound(x);
      Pow10Adds(19, k);
      Pow10Grows(19, 19 + k);
      RoundIsNearest(x, Pow10(k));
      RoundKeepsMultiples(Pow10(19), x, Pow10(k));
      assert RoundDiv(x, Pow10(k)) * Pow10(k) >= Pow10(19) * Pow10(k);
    }
  }

  lemma RoundKeepsMultiples(m: int, x: int, d: int)
    requires d > 0 && m * d <= x
    ensures RoundDiv(x, d) >= m && RoundDiv(x, d) * d >= m * d
  {
    RoundIsNearest(x, d);
    if RoundDiv(x, d) < m {
      Distribute(m, RoundDiv(x, d), d);
      assert false;
    }
    assert (RoundDiv(x, d) - m) * d >= 0;
  }

  /** Multiplying with 20 significant digits changes neither acceptance nor any amount of a line. */
  lemma PrecisionIsInvisible(item: Item)
    requires ValidItem(item)
    ensures item.quantity * item.unitPrice >= 0
    ensures ItemWithProduct(item, Significant(item.quantity * item.unitPrice)) == CalculateItem(item)
  {
    PositiveProduct(item.quantity, item.unitPrice);
    var x := item.quantity * item.unitPrice;
    SignificantKeeps(x);
    TwentyDigits();
  }
}
