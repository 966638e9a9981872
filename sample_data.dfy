/**
 * The sample company, client and invoice the application starts with
 * (src/data/sampleData.ts), and the invoice-number format shared with
 * `createNewInvoice`. Identifiers, dates and the random draw are parameters.
 */
module SampleData {
  import opened InvoiceTypes
  import opened Calculations

  const SampleCompany: Company := Company(
    "Acme Corporation", "123 Business Avenue", "San Francisco", "CA", "94107",
    "United States", "+1 (555) 123-4567", "billing@acmecorp.com", "www.acmecorp.com",
    "US123456789",
    Some("https://images.pexels.com/photos/15031644/pexels-photo-15031644/free-photo-of-letter-a-logo.jpeg?auto=compress&cs=tinysrgb&w=1260&h=750&dpr=1"))

  const SampleClient: Client := Client(
    "Globex Industries", "456 Client Street", "New York", "NY", "10001",
    "United States", "+1 (555) 987-6543", "accounts@globex.com", "US987654321")

  // ---------------------------------------------------------------------
  // Invoice numbers: `INV-${Math.floor(10000 + Math.random() * 90000)}`
  // ---------------------------------------------------------------------

  function DigitChar(d: nat): char
    requires d < 10
  {
    "0123456789"[d]
  }

  /** The decimal text of a natural number, without leading zeros. */
  function Digits(n: nat): string
  {
    if n < 10 then [DigitChar(n)] else Digits(n / 10) + [DigitChar(n % 10)]
  }

  function Pow10(k: nat): nat
  {
    if k == 0 then 1 else 10 * Pow10(k - 1)
  }

  /** A number with k + 1 digits is written with k + 1 decimal digits, the first not '0'. */
  lemma {:induction false} DigitsShape(n: nat, k: nat)
    requires Pow10(k) <= n < Pow10(k + 1)
    ensures |Digits(n)| == k + 1 && Digits(n)[0] != '0'
    ensures forall j :: 0 <= j < |Digits(n)| ==> '0' <= Digits(n)[j] <= '9'
  {
    if k > 0 {
      DigitsShape(n / 10, k - 1);
    }
  }

  /**
   * The invoice number drawn from `random`, a value of Math.random() in
   * [0, 1): "INV-" followed by a five-digit number from 10000 to 99999.
   */
  function InvoiceNumber(random: real): (r: string)
    requires 0.0 <= random < 1.0
    ensures |r| == 9 && r[..4] == "INV-" && r[4] != '0'
    ensures forall j :: 4 <= j < 9 ==> '0' <= r[j] <= '9'
  {
    var n := (10000.0 + random * 90000.0).Floor;
    assert 10000 <= n < 100000;
    DigitsShape(n, 4);
    "INV-" + Digits(n)
  }

  // ---------------------------------------------------------------------
  // createSampleInvoice (lines 31-86)
  // ---------------------------------------------------------------------

  /** The three sample items, with the item totals as the source stores them. */
  function SampleItems(itemIds: seq<string>): seq<InvoiceItem>
    requires |itemIds| == 3
  {
    [ InvoiceItem(itemIds[0], "Web Design Services", 1.0, 1200.0, 8.5, 0.0, Percentage, 1200.0),
      InvoiceItem(itemIds[1], "Logo Design", 1.0, 450.0, 8.5, 50.0, Fixed, 400.0),
      InvoiceItem(itemIds[2], "Hosting (Annual)", 1.0, 240.0, 0.0, 10.0, Percentage, 216.0) ]
  }

  /**
   * createSampleInvoice. `invoiceId` and `itemIds` stand for the uuid draws,
   * `random` for Math.random(), `date`/`dueDate` for today and today + 30
   * days formatted yyyy-MM-dd, and `now` for the ISO timestamp.
   */
  function CreateSampleInvoice(invoiceId: string, itemIds: seq<string>, random: real,
                               date: string, dueDate: string, now: string): (r: Invoice)
    requires |itemIds| == 3 && 0.0 <= random < 1.0
    ensures r.id == invoiceId && r.date == date && r.dueDate == dueDate
    ensures |r.invoiceNumber| == 9 && r.invoiceNumber[..4] == "INV-"
    ensures r.items == SampleItems(itemIds) && |r.items| == 3
    ensures forall i :: 0 <= i < 3 ==> r.items[i].id == itemIds[i]
    ensures TotalsOf(r) == Totals(1816.0, 136.0, 74.0, 1952.0)
    // the stored aggregates are internally coherent: total = subtotal + taxTotal
    ensures r.total == r.subtotal + r.taxTotal
    ensures r.status == Draft && r.currency == "USD" && r.paymentMethod == None
    ensures r.notes == "Thank you for your business!"
    ensures r.terms == "Payment due within 30 days. Late payments subject to a 1.5% monthly fee."
    ensures r.company == SampleCompany && r.client == SampleClient
    ensures r.createdAt == now && r.updatedAt == now
  {
    Invoice(invoiceId, InvoiceNumber(random), date, dueDate, SampleCompany, SampleClient,
            SampleItems(itemIds),
            "Thank you for your business!",
            "Payment due within 30 days. Late payments subject to a 1.5% monthly fee.",
            1816.0, 136.0, 74.0, 1952.0, "USD", Draft, None, now, now)
  }

  /**
   * The stored sample aggregates are exactly what recalculation derives:
   * subtotal 1816, tax 136, discount 74, total 1952.
   */
  lemma SampleAggregatesMatch(invoiceId: string, itemIds: seq<string>, random: real,
                              date: string, dueDate: string, now: string, later: string)
    requires |itemIds| == 3 && 0.0 <= random < 1.0
    ensures var sample := CreateSampleInvoice(invoiceId, itemIds, random, date, dueDate, now);
      TotalsOf(RecalculateInvoice(sample, later)) == TotalsOf(sample) == Totals(1816.0, 136.0, 74.0, 1952.0)
  {
    var sample := CreateSampleInvoice(invoiceId, itemIds, random, date, dueDate, now);
    var items := sample.items;
    AggregatesMatchItemEngine(sample, later);
    assert items[..2][..1] == items[..1] && items[..1][..0] == [];
    assert AfterDiscount(items[0]) == 1200.0 && TaxAmount(items[0]) == 102.0 && DiscountAmount(items[0]) == 0.0;
    assert AfterDiscount(items[1]) == 400.0 && TaxAmount(items[1]) == 34.0 && DiscountAmount(items[1]) == 50.0;
    assert AfterDiscount(items[2]) == 216.0 && TaxAmount(items[2]) == 0.0 && DiscountAmount(items[2]) == 24.0;
    assert Sum(items[..1], AfterDiscount) == 1200.0;
    assert Sum(items[..2], AfterDiscount) == 1600.0;
    assert Sum(items[..1], TaxAmount) == 102.0;
    assert Sum(items[..2], TaxAmount) == 136.0;
    assert Sum(items[..1], DiscountAmount) == 0.0;
    assert Sum(items[..2], DiscountAmount) == 50.0;
  }

  /**
   * The first two stored item totals are stale (pre-tax): recalculation
   * gives 1302 and 434 where the sample stores 1200 and 400, so the sample
   * invoice is not consistent even though its aggregates are right.
   */
  lemma SampleItemTotalsStale(invoiceId: string, itemIds: seq<string>, random: real,
                              date: string, dueDate: string, now: string)
    requires |itemIds| == 3 && 0.0 <= random < 1.0
    ensures var sample := CreateSampleInvoice(invoiceId, itemIds, random, date, dueDate, now);
      && CalculateItemTotal(sample.items[0]) == 1302.0 && sample.items[0].total == 1200.0
      && CalculateItemTotal(sample.items[1]) == 434.0 && sample.items[1].total == 400.0
      && CalculateItemTotal(sample.items[2]) == 216.0 && sample.items[2].total == 216.0
      && !Consistent(sample)
  {
    var sample := CreateSampleInvoice(invoiceId, itemIds, random, date, dueDate, now);
    assert AfterDiscount(sample.items[0]) == 1200.0;
    assert AfterDiscount(sample.items[1]) == 400.0;
    assert AfterDiscount(sample.items[2]) == 216.0;
  }
}
