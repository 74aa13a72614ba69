/** Sales tax on document lines. Quantities are counted in 1/10000, prices and amounts in cents, products
    of the two in 1/10000 cent. */
module Tax {
  import opened Common

  const IGV_PERCENT := 18
  /** 9999999999.9999 */
  const MAX_QUANTITY := 99_999_999_999_999
  /** 999999999999.99, for unit prices and for amounts. */
  const MAX_UNIT_PRICE := 99_999_999_999_999
  const MAX_AMOUNT := 99_999_999_999_999

  /** n / d rounded half up, for positive values. */
  function RoundDiv(n: int, d: int): int
    requires d > 0
  {
    (2 * n + d) / (2 * d)
  }

  function Pow10(k: nat): (p: nat)
    ensures p >= 1
  {
    if k == 0 then 1 else 10 * Pow10(k - 1)
  }

  function DigitCount(x: nat): nat {
    if x < 10 then 1 else 1 + DigitCount(x / 10)
  }

  /** x rounded half up to 20 significant digits, as decimal multiplication does. */
  function Significant(x: nat): int {
    var k := DigitCount(x) - 20;
    if k <= 0 then x else RoundDiv(x, Pow10(k)) * Pow10(k)
  }

  datatype Item = Item(quantity: int, unitPrice: int)

  datatype Line = Line(quantity: int, unitPrice: int, unitPriceWithTax: int, subtotal: int, tax: int, total: int)

  predicate ValidItem(item: Item) {
    0 < item.quantity <= MAX_QUANTITY && 0 < item.unitPrice <= MAX_UNIT_PRICE
  }

  /** `calculateItem` with a given product of quantity and unit price. */
  function ItemWithProduct(item: Item, product: int): Option<Line> {
    if !ValidItem(item) then None
    else
      var subtotal := RoundDiv(product, 10000);
      if subtotal > MAX_AMOUNT then None
      else
        var tax := RoundDiv(subtotal * IGV_PERCENT, 100);
        var total := subtotal + tax;
        if total > MAX_AMOUNT then None
        else
          Some(Line(item.quantity, item.unitPrice, RoundDiv(item.unitPrice * (100 + IGV_PERCENT), 100), subtotal, tax,
                    total))
  }

  /** `calculateItem` on exact decimals. */
  function CalculateItem(item: Item): Option<Line> {
    ItemWithProduct(item, item.quantity * item.unitPrice)
  }

  datatype Document = Document(lines: seq<Line>, subtotal: int, tax: int, total: int)

  /** All lines, or nothing if one item is refused. */
  function CalculateLines(items: seq<Item>): Option<seq<Line>> {
    if items == [] then Some([])
    else
      var line, others := CalculateItem(items[0]), CalculateLines(items[1..]);
      if line.None? || others.None? then None else Some([line.value] + others.value)
  }

  function SumSubtotals(lines: seq<Line>): int {
    if lines == [] then 0 else lines[0].subtotal + SumSubtotals(lines[1..])
  }

  function SumTaxes(lines: seq<Line>): int {
    if lines == [] then 0 else lines[0].tax + SumTaxes(lines[1..])
  }

  function SumTotals(lines: seq<Line>): int {
    if lines == [] then 0 else lines[0].total + SumTotals(lines[1..])
  }

  /** `calculateDocument`. */
  function CalculateDocument(items: seq<Item>): Option<Document> {
    var lines := CalculateLines(items);
    if items == [] || lines.None? then None
    else
      var d := Document(lines.value, SumSubtotals(lines.value), SumTaxes(lines.value), SumTotals(lines.value));
      if d.subtotal > MAX_AMOUNT || d.tax > MAX_AMOUNT || d.total > MAX_AMOUNT then None else Some(d)
  }

  // ----- The inline calculation of `create` ---------------------------------------------------

  datatype Amounts = Amounts(subtotal: int, tax: int, total: int)

  /** Without any check. */
  function InlineItem(item: Item): Amounts {
    var subtotal := RoundDiv(item.quantity * item.unitPrice, 10000);
    var tax := RoundDiv(subtotal * 18, 100);
    Amounts(subtotal, tax, subtotal + tax)
  }

  function InlineSubtotal(items: seq<Item>): int {
    if items == [] then 0 else InlineItem(items[0]).subtotal + InlineSubtotal(items[1..])
  }

  function InlineTax(items: seq<Item>): int {
    if items == [] then 0 else InlineItem(items[0]).tax + InlineTax(items[1..])
  }

  /** The total is the sum of the two sums. */
  function InlineDocument(items: seq<Item>): Amounts {
    Amounts(InlineSubtotal(items), InlineTax(items), InlineSubtotal(items) + InlineTax(items))
  }

  /** The unit price with tax that the invoice prints: the line total divided by the quantity. */
  function PrintedUnitPrice(line: Line): int
    requires line.quantity > 0
  {
    RoundDiv(line.total * 10000, line.quantity)
  }
}
