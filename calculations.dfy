/**
 * The invoice computation engine (src/utils/calculations.ts): the per-item
 * amount `calculateItemTotal` and the whole-invoice `recalculateInvoice`,
 * which maps every item to a fresh `total` and derives the four aggregates
 * with three `reduce` folds. Arithmetic is exact over `real`.
 */
module Calculations {
  import opened InvoiceTypes

  // ---------------------------------------------------------------------
  // The per-item engine (calculateItemTotal, lines 3-22)
  // ---------------------------------------------------------------------

  /** quantity × unitPrice, before discount or tax. */
  function LineSubtotal(item: InvoiceItem): real
  {
    item.quantity * item.unitPrice
  }

  /**
   * The discount rule: only a strictly positive discount applies; a
   * percentage is taken of the line subtotal, a fixed amount is taken as
   * given (not capped by the line subtotal).
   */
  function DiscountAmount(item: InvoiceItem): real
  {
    if item.discount > 0.0 then
      if item.discountType == Percentage then LineSubtotal(item) * (item.discount / 100.0)
      else item.discount
    else 0.0
  }

  /** The tax base: the line subtotal less the discount. */
  function AfterDiscount(item: InvoiceItem): real
  {
    LineSubtotal(item) - DiscountAmount(item)
  }

  /** Tax is computed on the post-discount base. */
  function TaxAmount(item: InvoiceItem): real
  {
    AfterDiscount(item) * (item.taxRate / 100.0)
  }

  /** calculateItemTotal: the amount stored as an item's `total`. */
  function CalculateItemTotal(item: InvoiceItem): (r: real)
    // the closed form (q·p − d)·(1 + taxRate/100)
    ensures r == (item.quantity * item.unitPrice - DiscountAmount(item)) * (1.0 + item.taxRate / 100.0)
    // a zero or negative discount is ignored, whatever its type
    ensures item.discount <= 0.0 ==>
      r == item.quantity * item.unitPrice * (1.0 + item.taxRate / 100.0)
    ensures item.discount > 0.0 && item.discountType == Percentage ==>
      r == item.quantity * item.unitPrice * (1.0 - item.discount / 100.0) * (1.0 + item.taxRate / 100.0)
    ensures item.discount > 0.0 && item.discountType == Fixed ==>
      r == (item.quantity * item.unitPrice - item.discount) * (1.0 + item.taxRate / 100.0)
  {
    AfterDiscount(item) + TaxAmount(item)
  }

  /** The value an item currently stores as its `total` (never read by the engine). */
  function StoredTotal(item: InvoiceItem): real
  {
    item.total
  }

  /** A zero or negative discount contributes nothing, and its type is irrelevant. */
  lemma NonPositiveDiscountIgnored(item: InvoiceItem, otherType: DiscountType)
    requires item.discount <= 0.0
    ensures DiscountAmount(item) == 0.0
    ensures CalculateItemTotal(item.(discountType := otherType)) == CalculateItemTotal(item)
  {
  }

  /**
   * A fixed discount larger than the line subtotal is not capped: the tax
   * base goes negative, and with it the tax (for a positive rate) and the
   * item's total (for any rate above −100%).
   */
  lemma FixedDiscountUncapped(item: InvoiceItem)
    requires item.discountType == Fixed
    requires item.discount > item.quantity * item.unitPrice
    ensures AfterDiscount(item) < 0.0
    ensures item.taxRate > 0.0 ==> TaxAmount(item) < 0.0
    ensures item.taxRate > -100.0 ==> CalculateItemTotal(item) < 0.0
  {
    if item.discount > 0.0 {
      assert DiscountAmount(item) == item.discount;
    } else {
      assert DiscountAmount(item) == 0.0;
    }
    assert AfterDiscount(item) < 0.0;
    if item.taxRate > 0.0 {
      NegTimesPos(AfterDiscount(item), item.taxRate / 100.0);
    }
    if item.taxRate > -100.0 {
      NegTimesPos(AfterDiscount(item), 1.0 + item.taxRate / 100.0);
    }
  }

  lemma NegTimesPos(x: real, y: real)
    requires x < 0.0 && y > 0.0
    ensures x * y < 0.0
  {
  }

  /**
   * A zero quantity does not always give a zero total: it does exactly when
   * no positive fixed discount applies (or the tax rate is exactly −100%).
   */
  lemma ZeroQuantityTotal(item: InvoiceItem)
    requires item.quantity == 0.0
    ensures CalculateItemTotal(item) == 0.0 <==>
      (item.discount <= 0.0 || item.discountType == Percentage || item.taxRate == -100.0)
  {
    if item.discount > 0.0 && item.discountType == Fixed {
      assert CalculateItemTotal(item) == -item.discount * (1.0 + item.taxRate / 100.0);
      if item.taxRate != -100.0 {
        assert 1.0 + item.taxRate / 100.0 != 0.0;
        NonZeroProduct(-item.discount, 1.0 + item.taxRate / 100.0);
      }
    }
  }

  lemma NonZeroProduct(x: real, y: real)
    requires x != 0.0 && y != 0.0
    ensures x * y != 0.0
  {
  }

  /** A percentage discount: 2 × 50 less 10%, plus 10% tax, gives 99. */
  lemma PercentageExample()
    ensures var item := InvoiceItem("a", "", 2.0, 50.0, 10.0, 10.0, Percentage, 0.0);
      DiscountAmount(item) == 10.0 && AfterDiscount(item) == 90.0 &&
      TaxAmount(item) == 9.0 && CalculateItemTotal(item) == 99.0
  {
  }

  /** A fixed discount: 450 less 50, untaxed, gives 400. */
  lemma FixedExample()
    ensures var item := InvoiceItem("b", "", 1.0, 450.0, 0.0, 50.0, Fixed, 0.0);
      AfterDiscount(item) == 400.0 && TaxAmount(item) == 0.0 && CalculateItemTotal(item) == 400.0
  {
    var item := InvoiceItem("b", "", 1.0, 450.0, 0.0, 50.0, Fixed, 0.0);
    assert LineSubtotal(item) == 450.0;
    assert DiscountAmount(item) == 50.0;
    assert AfterDiscount(item) == 400.0;
    assert TaxAmount(item) == 0.0;
  }

  // ---------------------------------------------------------------------
  // The reduce folds
  // ---------------------------------------------------------------------

  /**
   * `s.reduce((sum, x) => sum + g(x), 0)`: a left fold from zero, the last
   * element added last.
   */
  function Sum<T>(s: seq<T>, g: T -> real): real
  {
    if |s| == 0 then 0.0 else Sum(s[..|s| - 1], g) + g(s[|s| - 1])
  }

  lemma {:induction false} SumAppend<T>(s: seq<T>, t: seq<T>, g: T -> real)
    ensures Sum(s + t, g) == Sum(s, g) + Sum(t, g)
    decreases |t|
  {
    if |t| == 0 {
      assert s + t == s;
    } else {
      var t' := t[..|t| - 1];
      assert (s + t)[..|s + t| - 1] == s + t';
      SumAppend(s, t', g);
    }
  }

  /** Two folds agree when they agree element by element. */
  lemma {:induction false} SumCongruent<T, U>(a: seq<T>, f: T -> real, b: seq<U>, g: U -> real)
    requires |a| == |b|
    requires forall i :: 0 <= i < |a| ==> f(a[i]) == g(b[i])
    ensures Sum(a, f) == Sum(b, g)
    decreases |a|
  {
    if |a| > 0 {
      SumCongruent(a[..|a| - 1], f, b[..|b| - 1], g);
    }
  }

  /** The fold of a pointwise sum is the sum of the folds. */
  lemma {:induction false} SumSplit<T>(s: seq<T>, f: T -> real, g: T -> real, h: T -> real)
    requires forall i :: 0 <= i < |s| ==> h(s[i]) == f(s[i]) + g(s[i])
    ensures Sum(s, h) == Sum(s, f) + Sum(s, g)
    decreases |s|
  {
    if |s| > 0 {
      SumSplit(s[..|s| - 1], f, g, h);
    }
  }

  /** The fold of a pointwise difference is the difference of the folds. */
  lemma {:induction false} SumDifference<T>(s: seq<T>, f: T -> real, g: T -> real, h: T -> real)
    requires forall i :: 0 <= i < |s| ==> h(s[i]) == f(s[i]) - g(s[i])
    ensures Sum(s, h) == Sum(s, f) - Sum(s, g)
    decreases |s|
  {
    if |s| > 0 {
      SumDifference(s[..|s| - 1], f, g, h);
    }
  }

  /** The order of the elements does not matter to the fold. */
  lemma {:induction false} SumPermutation<T>(a: seq<T>, b: seq<T>, g: T -> real)
    requires multiset(a) == multiset(b)
    ensures Sum(a, g) == Sum(b, g)
    decreases |a|
  {
    if |a| == 0 {
      assert |multiset(b)| == 0;
    } else {
      var x := a[|a| - 1];
      var a' := a[..|a| - 1];
      assert a == a' + [x];
      assert x in multiset(a);
      var j :| 0 <= j < |b| && b[j] == x;
      var b' := b[..j] + b[j + 1..];
      assert b == b[..j] + [x] + b[j + 1..];
      assert multiset(b) == multiset(b') + multiset{x};
      assert multiset(a) == multiset(a') + multiset{x};
      assert multiset(a') == multiset(a) - multiset{x};
      assert multiset(a') == multiset(b');
      SumPermutation(a', b', g);
      SumAppend(b[..j] + [x], b[j + 1..], g);
      SumAppend(b[..j], [x], g);
      SumAppend(b[..j], b[j + 1..], g);
      assert Sum([x], g) == g(x) by {
        assert [x][..0] == [];
      }
    }
  }

  /** The subtotal callback (lines 32-45), with its own copy of the discount rule. */
  function SubtotalContribution(item: InvoiceItem): (c: real)
    ensures c == AfterDiscount(item)
  {
    var itemSubtotal := item.quantity * item.unitPrice;
    var discountAmount :=
      if item.discount > 0.0 then
        if item.discountType == Percentage then itemSubtotal * (item.discount / 100.0)
        else item.discount
      else 0.0;
    itemSubtotal - discountAmount
  }

  /** The tax callback (lines 48-64), with its own copy of the discount rule. */
  function TaxContribution(item: InvoiceItem): (c: real)
    ensures c == TaxAmount(item)
    ensures SubtotalContribution(item) + c == CalculateItemTotal(item)
  {
    var itemSubtotal := item.quantity * item.unitPrice;
    var discountAmount :=
      if item.discount > 0.0 then
        if item.discountType == Percentage then itemSubtotal * (item.discount / 100.0)
        else item.discount
      else 0.0;
    var afterDiscount := itemSubtotal - discountAmount;
    afterDiscount * (item.taxRate / 100.0)
  }

  /** The discount callback (lines 67-80), with its own copy of the discount rule. */
  function DiscountContribution(item: InvoiceItem): (c: real)
    ensures c == DiscountAmount(item)
    ensures SubtotalContribution(item) == LineSubtotal(item) - c
  {
    var itemSubtotal := item.quantity * item.unitPrice;
    if item.discount > 0.0 then
      if item.discountType == Percentage then itemSubtotal * (item.discount / 100.0)
      else item.discount
    else 0.0
  }

  // ---------------------------------------------------------------------
  // recalculateInvoice (lines 24-94)
  // ---------------------------------------------------------------------

  /** The engine never reads an item's stored `total`. */
  lemma IgnoresStoredTotal(item: InvoiceItem, t: real)
    ensures var other := item.(total := t);
      && LineSubtotal(other) == LineSubtotal(item)
      && DiscountAmount(other) == DiscountAmount(item)
      && AfterDiscount(other) == AfterDiscount(item)
      && TaxAmount(other) == TaxAmount(item)
      && CalculateItemTotal(other) == CalculateItemTotal(item)
  {
  }

  /** `items.map(item => ({...item, total: calculateItemTotal(item)}))`. */
  function RecalculateItems(items: seq<InvoiceItem>): (r: seq<InvoiceItem>)
    ensures |r| == |items|
    ensures forall i :: 0 <= i < |r| ==>
      r[i].total == CalculateItemTotal(items[i]) && r[i].(total := items[i].total) == items[i]
  {
    seq(|items|, i requires 0 <= i < |items| => items[i].(total := CalculateItemTotal(items[i])))
  }

  /**
   * recalculateInvoice: fresh item totals, the three folds over the updated
   * items, the grand total, and a new `updatedAt` (the clock reading `now`).
   */
  function RecalculateInvoice(invoice: Invoice, now: string): (r: Invoice)
    ensures r.items == RecalculateItems(invoice.items)
    ensures r.total == r.subtotal + r.taxTotal
    ensures r.updatedAt == now
    // every other field is carried through unchanged
    ensures r.(items := invoice.items, subtotal := invoice.subtotal, taxTotal := invoice.taxTotal,
               discountTotal := invoice.discountTotal, total := invoice.total,
               updatedAt := invoice.updatedAt) == invoice
  {
    var updatedItems := RecalculateItems(invoice.items);
    var subtotal := Sum(updatedItems, SubtotalContribution);
    var taxTotal := Sum(updatedItems, TaxContribution);
    var discountTotal := Sum(updatedItems, DiscountContribution);
    var total := subtotal + taxTotal;
    invoice.(items := updatedItems, subtotal := subtotal, taxTotal := taxTotal,
             discountTotal := discountTotal, total := total, updatedAt := now)
  }

  /**
   * The aggregates an invoice's items determine, stated with the per-item
   * engine: subtotal = Σ base, taxTotal = Σ tax, discountTotal = Σ discount,
   * total = subtotal + taxTotal. Every recalculation must produce these.
   */
  function ExpectedTotals(items: seq<InvoiceItem>): Totals
  {
    Totals(Sum(items, AfterDiscount), Sum(items, TaxAmount), Sum(items, DiscountAmount),
           Sum(items, AfterDiscount) + Sum(items, TaxAmount))
  }

  /**
   * The three folds agree with the per-item engine, and never read an
   * item's stored `total`: the aggregates depend on the input items alone.
   */
  lemma AggregatesMatchItemEngine(invoice: Invoice, now: string)
    ensures TotalsOf(RecalculateInvoice(invoice, now)) == ExpectedTotals(invoice.items)
  {
    var items := invoice.items;
    var updated := RecalculateItems(items);
    forall i | 0 <= i < |items|
      ensures AfterDiscount(updated[i]) == AfterDiscount(items[i])
      ensures TaxAmount(updated[i]) == TaxAmount(items[i])
      ensures DiscountAmount(updated[i]) == DiscountAmount(items[i])
    {
      assert updated[i] == items[i].(total := updated[i].total);
      IgnoresStoredTotal(items[i], updated[i].total);
    }
    SumCongruent(updated, SubtotalContribution, items, AfterDiscount);
    SumCongruent(updated, TaxContribution, items, TaxAmount);
    SumCongruent(updated, DiscountContribution, items, DiscountAmount);
  }

  /**
   * The grand total is the sum of the recomputed item totals: the folds
   * neither drop nor double-count anything an item's own total contains.
   */
  lemma GrandTotalIsSumOfItemTotals(invoice: Invoice, now: string)
    ensures var r := RecalculateInvoice(invoice, now);
      r.subtotal + r.taxTotal == Sum(r.items, StoredTotal) &&
      r.total == Sum(invoice.items, CalculateItemTotal)
  {
    var r := RecalculateInvoice(invoice, now);
    forall i | 0 <= i < |r.items|
      ensures StoredTotal(r.items[i]) == SubtotalContribution(r.items[i]) + TaxContribution(r.items[i])
      ensures StoredTotal(r.items[i]) == CalculateItemTotal(invoice.items[i])
    {
      assert r.items[i] == invoice.items[i].(total := r.items[i].total);
      IgnoresStoredTotal(invoice.items[i], r.items[i].total);
    }
    SumSplit(r.items, SubtotalContribution, TaxContribution, StoredTotal);
    SumCongruent(r.items, StoredTotal, invoice.items, CalculateItemTotal);
  }

  /** The subtotal is the gross line amount less the total discount. */
  lemma SubtotalIsGrossLessDiscount(invoice: Invoice, now: string)
    ensures var r := RecalculateInvoice(invoice, now);
      r.subtotal == Sum(invoice.items, LineSubtotal) - r.discountTotal
  {
    AggregatesMatchItemEngine(invoice, now);
    SumDifference(invoice.items, LineSubtotal, DiscountAmount, AfterDiscount);
  }

  /** An invoice without items has every aggregate zero. */
  lemma EmptyInvoiceTotals(invoice: Invoice, now: string)
    requires invoice.items == []
    ensures TotalsOf(RecalculateInvoice(invoice, now)) == Totals(0.0, 0.0, 0.0, 0.0)
  {
  }

  /**
   * Recalculating twice is recalculating once: the second pass finds the
   * same inputs (only `total` differs, and it is never read).
   */
  lemma RecalculateIdempotent(invoice: Invoice, first: string, second: string)
    ensures RecalculateInvoice(RecalculateInvoice(invoice, first), second)
         == RecalculateInvoice(invoice, second)
  {
    var once := RecalculateItems(invoice.items);
    var twice := RecalculateItems(once);
    forall i | 0 <= i < |once|
      ensures twice[i] == once[i]
    {
      assert once[i] == invoice.items[i].(total := once[i].total);
      IgnoresStoredTotal(invoice.items[i], once[i].total);
    }
    assert twice == once;
  }

  /** Reordering the items leaves all four aggregates unchanged. */
  lemma RecalculatePermutationInvariant(a: Invoice, b: Invoice, now: string, now': string)
    requires multiset(a.items) == multiset(b.items)
    ensures TotalsOf(RecalculateInvoice(a, now)) == TotalsOf(RecalculateInvoice(b, now'))
  {
    AggregatesMatchItemEngine(a, now);
    AggregatesMatchItemEngine(b, now');
    SumPermutation(a.items, b.items, AfterDiscount);
    SumPermutation(a.items, b.items, TaxAmount);
    SumPermutation(a.items, b.items, DiscountAmount);
  }

  /**
   * An invoice whose derived fields are what its items determine: every item
   * total is fresh and the aggregates are the expected ones.
   */
  ghost predicate Consistent(invoice: Invoice)
  {
    && (forall i :: 0 <= i < |invoice.items| ==>
          invoice.items[i].total == CalculateItemTotal(invoice.items[i]))
    && TotalsOf(invoice) == ExpectedTotals(invoice.items)
  }

  /** Every recalculation yields a consistent invoice. */
  lemma RecalculateIsConsistent(invoice: Invoice, now: string)
    ensures Consistent(RecalculateInvoice(invoice, now))
  {
    var r := RecalculateInvoice(invoice, now);
    AggregatesMatchItemEngine(invoice, now);
    AggregatesMatchItemEngine(r, now);
    RecalculateIdempotent(invoice, now, now);
  }

  /** An invoice is consistent exactly when recalculating it changes nothing but the clock. */
  lemma ConsistentIffFixedPoint(invoice: Invoice)
    ensures Consistent(invoice) <==> RecalculateInvoice(invoice, invoice.updatedAt) == invoice
  {
    var r := RecalculateInvoice(invoice, invoice.updatedAt);
    AggregatesMatchItemEngine(invoice, invoice.updatedAt);
    if Consistent(invoice) {
      assert r.items == invoice.items;
    }
    if r == invoice {
      RecalculateIsConsistent(invoice, invoice.updatedAt);
    }
  }
}
