/**
 * The invoice state container (src/context/InvoiceContext.tsx): one mutable
 * cell, `currentInvoice`, replaced wholesale by every operation. The new
 * value each operation builds (by spread, map, filter and append) is a pure
 * function below; the provider class applies it. Every clock reading is the
 * parameter `now`, every fresh uuid a parameter, Math.random() the parameter
 * `random`, and the formatted dates are parameters.
 */
module InvoiceContext {
  import opened InvoiceTypes
  import opened Calculations
  import opened SampleData

  // ---------------------------------------------------------------------
  // Items
  // ---------------------------------------------------------------------

  /** The blank item addItem appends. */
  function NewItem(id: string): InvoiceItem
  {
    InvoiceItem(id, "", 1.0, 0.0, 0.0, 0.0, Percentage, 0.0)
  }

  /** A blank item contributes nothing to any aggregate, and its stored total is already right. */
  lemma NewItemContributesNothing(id: string)
    ensures var item := NewItem(id);
      AfterDiscount(item) == 0.0 && TaxAmount(item) == 0.0 && DiscountAmount(item) == 0.0 &&
      CalculateItemTotal(item) == item.total
  {
  }

  /** `Partial<InvoiceItem>`: a field that is present overrides the item's own. */
  datatype ItemUpdate = ItemUpdate(
    id: Option<string>,
    description: Option<string>,
    quantity: Option<real>,
    unitPrice: Option<real>,
    taxRate: Option<real>,
    discount: Option<real>,
    discountType: Option<DiscountType>,
    total: Option<real>)

  function Override<T>(current: T, update: Option<T>): T
  {
    match update
    case Some(v) => v
    case None => current
  }

  /** `{ ...item, ...itemUpdates }`. */
  function MergeItem(item: InvoiceItem, u: ItemUpdate): InvoiceItem
  {
    InvoiceItem(
      Override(item.id, u.id),
      Override(item.description, u.description),
      Override(item.quantity, u.quantity),
      Override(item.unitPrice, u.unitPrice),
      Override(item.taxRate, u.taxRate),
      Override(item.discount, u.discount),
      Override(item.discountType, u.discountType),
      Override(item.total, u.total))
  }

  /** Merging the same update twice is merging it once; an empty update changes nothing. */
  lemma MergeItemLaws(item: InvoiceItem, u: ItemUpdate)
    ensures MergeItem(MergeItem(item, u), u) == MergeItem(item, u)
    ensures MergeItem(item, ItemUpdate(None, None, None, None, None, None, None, None)) == item
  {
  }

  /** `items.map(item => item.id === id ? { ...item, ...itemUpdates } : item)`. */
  function UpdateItems(items: seq<InvoiceItem>, id: string, u: ItemUpdate): (r: seq<InvoiceItem>)
    ensures |r| == |items|
    ensures forall i :: 0 <= i < |items| && items[i].id != id ==> r[i] == items[i]
    ensures forall i :: 0 <= i < |items| && items[i].id == id ==> r[i] == MergeItem(items[i], u)
  {
    seq(|items|, i requires 0 <= i < |items| =>
      if items[i].id == id then MergeItem(items[i], u) else items[i])
  }

  /** `items.filter(item => item.id !== id)`. */
  function RemoveItems(items: seq<InvoiceItem>, id: string): (r: seq<InvoiceItem>)
    ensures |r| <= |items|
    ensures forall x :: x in r <==> x in items && x.id != id
  {
    if |items| == 0 then []
    else (if items[0].id != id then [items[0]] else []) + RemoveItems(items[1..], id)
  }

  /** No two items share an id (what uuid generation provides). */
  ghost predicate UniqueIds(items: seq<InvoiceItem>)
  {
    forall i, j :: 0 <= i < |items| && 0 <= j < |items| && items[i].id == items[j].id ==> i == j
  }

  /** Filtering keeps the survivors in their original relative order. */
  lemma {:induction false} RemoveItemsKeepsOrder(a: seq<InvoiceItem>, b: seq<InvoiceItem>, id: string)
    ensures RemoveItems(a + b, id) == RemoveItems(a, id) + RemoveItems(b, id)
    decreases |a|
  {
    if |a| > 0 {
      var head := if a[0].id != id then [a[0]] else [];
      calc {
        RemoveItems(a + b, id);
        { assert (a + b)[0] == a[0] && (a + b)[1..] == a[1..] + b; }
        head + RemoveItems(a[1..] + b, id);
        { RemoveItemsKeepsOrder(a[1..], b, id); }
        head + (RemoveItems(a[1..], id) + RemoveItems(b, id));
        (head + RemoveItems(a[1..], id)) + RemoveItems(b, id);
        RemoveItems(a, id) + RemoveItems(b, id);
      }
    } else {
      assert a + b == b;
    }
  }

  /** Removing an id no item carries changes nothing. */
  lemma {:induction false} RemoveAbsentId(items: seq<InvoiceItem>, id: string)
    requires forall i :: 0 <= i < |items| ==> items[i].id != id
    ensures RemoveItems(items, id) == items
    decreases |items|
  {
    if |items| > 0 {
      RemoveAbsentId(items[1..], id);
    }
  }

  /** With unique ids, removing item k's id removes exactly item k. */
  lemma {:induction false} RemoveUniqueItem(items: seq<InvoiceItem>, k: nat)
    requires UniqueIds(items) && k < |items|
    ensures RemoveItems(items, items[k].id) == items[..k] + items[k + 1..]
  {
    var id := items[k].id;
    var p, q := items[..k], items[k + 1..];
    assert items == p + ([items[k]] + q);
    forall i | 0 <= i < |p| ensures p[i].id != id {
      assert p[i] == items[i];
    }
    forall i | 0 <= i < |q| ensures q[i].id != id {
      assert q[i] == items[k + 1 + i];
    }
    assert RemoveItems([items[k]], id) == [] by {
      assert [items[k]][1..] == [];
    }
    calc {
      RemoveItems(items, id);
      RemoveItems(p + ([items[k]] + q), id);
      { RemoveItemsKeepsOrder(p, [items[k]] + q, id); }
      RemoveItems(p, id) + RemoveItems([items[k]] + q, id);
      { RemoveItemsKeepsOrder([items[k]], q, id); }
      RemoveItems(p, id) + (RemoveItems([items[k]], id) + RemoveItems(q, id));
      { RemoveAbsentId(p, id); RemoveAbsentId(q, id); }
      p + ([] + q);
    }
    assert [] + q == q;
  }

  /** With unique ids, updating item k's id touches item k and nothing else. */
  lemma UpdateUniqueItem(items: seq<InvoiceItem>, k: nat, u: ItemUpdate)
    requires UniqueIds(items) && k < |items|
    ensures UpdateItems(items, items[k].id, u) == items[k := MergeItem(items[k], u)]
  {
  }

  /** The fold over a sequence with one element replaced changes by that element's difference. */
  lemma {:induction false} SumReplace<T>(s: seq<T>, k: nat, x: T, g: T -> real)
    requires k < |s|
    ensures Sum(s[k := x], g) == Sum(s, g) - g(s[k]) + g(x)
  {
    var t := s[k := x];
    assert s == s[..k] + [s[k]] + s[k + 1..];
    assert t == s[..k] + [x] + s[k + 1..];
    SumAppend(s[..k] + [s[k]], s[k + 1..], g);
    SumAppend(s[..k], [s[k]], g);
    SumAppend(s[..k] + [x], s[k + 1..], g);
    SumAppend(s[..k], [x], g);
    assert [s[k]][..0] == [] && [x][..0] == [];
  }

  /** The fold over a sequence with element k dropped loses exactly that element. */
  lemma {:induction false} SumDrop<T>(s: seq<T>, k: nat, g: T -> real)
    requires k < |s|
    ensures Sum(s[..k] + s[k + 1..], g) == Sum(s, g) - g(s[k])
  {
    var p, q := s[..k], s[k + 1..];
    assert s == (p + [s[k]]) + q;
    SumAppend(p + [s[k]], q, g);
    SumAppend(p, [s[k]], g);
    SumAppend(p, q, g);
    assert Sum([s[k]], g) == g(s[k]) by {
      assert [s[k]][..0] == [];
    }
  }

  // ---------------------------------------------------------------------
  // The new invoice value each operation builds
  // ---------------------------------------------------------------------

  /** addItem (lines 46-66): append a blank item, then recalculate. */
  function AddItemTo(prev: Invoice, newId: string, now: string): (r: Invoice)
    ensures |r.items| == |prev.items| + 1
    ensures forall i :: 0 <= i < |prev.items| ==>
      r.items[i] == prev.items[i].(total := CalculateItemTotal(prev.items[i]))
    ensures r.items[|prev.items|] == NewItem(newId)
    ensures Consistent(r)
    // the blank item moves no aggregate
    ensures TotalsOf(r) == ExpectedTotals(prev.items)
    ensures r.updatedAt == now
    // every field outside the items, the aggregates and updatedAt is carried through
    ensures r.(items := prev.items, subtotal := prev.subtotal, taxTotal := prev.taxTotal,
               discountTotal := prev.discountTotal, total := prev.total, updatedAt := prev.updatedAt) == prev
  {
    var updatedInvoice := prev.(items := prev.items + [NewItem(newId)], updatedAt := now);
    RecalculateIsConsistent(updatedInvoice, now);
    AddItemKeepsTotals(prev, newId, now);
    RecalculateInvoice(updatedInvoice, now)
  }

  lemma AddItemKeepsTotals(prev: Invoice, newId: string, now: string)
    ensures var updated := prev.(items := prev.items + [NewItem(newId)], updatedAt := now);
      TotalsOf(RecalculateInvoice(updated, now)) == ExpectedTotals(prev.items)
  {
    var updated := prev.(items := prev.items + [NewItem(newId)], updatedAt := now);
    AggregatesMatchItemEngine(updated, now);
    NewItemContributesNothing(newId);
    SumAppend(prev.items, [NewItem(newId)], AfterDiscount);
    SumAppend(prev.items, [NewItem(newId)], TaxAmount);
    SumAppend(prev.items, [NewItem(newId)], DiscountAmount);
  }

  /** updateItem (lines 68-80): merge into every item with that id, then recalculate. */
  function UpdateItemIn(prev: Invoice, id: string, u: ItemUpdate, now: string): (r: Invoice)
    ensures |r.items| == |prev.items|
    ensures forall i :: 0 <= i < |prev.items| && prev.items[i].id != id ==>
      r.items[i] == prev.items[i].(total := CalculateItemTotal(prev.items[i]))
    ensures forall i :: 0 <= i < |prev.items| && prev.items[i].id == id ==>
      r.items[i] == MergeItem(prev.items[i], u).(total := CalculateItemTotal(MergeItem(prev.items[i], u)))
    ensures Consistent(r)
    ensures TotalsOf(r) == ExpectedTotals(UpdateItems(prev.items, id, u))
    ensures r.updatedAt == now
    // every field outside the items, the aggregates and updatedAt is carried through
    ensures r.(items := prev.items, subtotal := prev.subtotal, taxTotal := prev.taxTotal,
               discountTotal := prev.discountTotal, total := prev.total, updatedAt := prev.updatedAt) == prev
  {
    var updatedInvoice := prev.(items := UpdateItems(prev.items, id, u), updatedAt := now);
    RecalculateIsConsistent(updatedInvoice, now);
    AggregatesMatchItemEngine(updatedInvoice, now);
    RecalculateInvoice(updatedInvoice, now)
  }

  /**
   * With unique ids, updating item k moves each aggregate by exactly the
   * difference between the merged item's share and the old item's share.
   */
  lemma UpdateItemAggregateDelta(prev: Invoice, k: nat, u: ItemUpdate, now: string)
    requires UniqueIds(prev.items) && k < |prev.items|
    ensures var before := ExpectedTotals(prev.items);
      var after := TotalsOf(UpdateItemIn(prev, prev.items[k].id, u, now));
      var previous, merged := prev.items[k], MergeItem(prev.items[k], u);
      && after.subtotal == before.subtotal - AfterDiscount(previous) + AfterDiscount(merged)
      && after.taxTotal == before.taxTotal - TaxAmount(previous) + TaxAmount(merged)
      && after.discountTotal == before.discountTotal - DiscountAmount(previous) + DiscountAmount(merged)
  {
    var items := prev.items;
    var merged := MergeItem(items[k], u);
    UpdateUniqueItem(items, k, u);
    SumReplace(items, k, merged, AfterDiscount);
    SumReplace(items, k, merged, TaxAmount);
    SumReplace(items, k, merged, DiscountAmount);
  }

  /** Updating an id that no item carries changes no item's inputs. */
  lemma UpdateAbsentId(prev: Invoice, id: string, u: ItemUpdate, now: string)
    requires forall i :: 0 <= i < |prev.items| ==> prev.items[i].id != id
    ensures UpdateItemIn(prev, id, u, now) == RecalculateInvoice(prev, now)
  {
    assert UpdateItems(prev.items, id, u) == prev.items;
  }

  /** removeItem (lines 82-91): drop every item with that id, then recalculate. */
  function RemoveItemFrom(prev: Invoice, id: string, now: string): (r: Invoice)
    ensures r.items == RecalculateItems(RemoveItems(prev.items, id))
    ensures Consistent(r)
    ensures TotalsOf(r) == ExpectedTotals(RemoveItems(prev.items, id))
    ensures r.updatedAt == now
    // every field outside the items, the aggregates and updatedAt is carried through
    ensures r.(items := prev.items, subtotal := prev.subtotal, taxTotal := prev.taxTotal,
               discountTotal := prev.discountTotal, total := prev.total, updatedAt := prev.updatedAt) == prev
  {
    var updatedInvoice := prev.(items := RemoveItems(prev.items, id), updatedAt := now);
    RecalculateIsConsistent(updatedInvoice, now);
    AggregatesMatchItemEngine(updatedInvoice, now);
    RecalculateInvoice(updatedInvoice, now)
  }

  /** With unique ids, removing item k takes exactly its share out of each aggregate. */
  lemma RemoveItemAggregateDelta(prev: Invoice, k: nat, now: string)
    requires UniqueIds(prev.items) && k < |prev.items|
    ensures var before := ExpectedTotals(prev.items);
      var after := TotalsOf(RemoveItemFrom(prev, prev.items[k].id, now));
      var gone := prev.items[k];
      && after.subtotal == before.subtotal - AfterDiscount(gone)
      && after.taxTotal == before.taxTotal - TaxAmount(gone)
      && after.discountTotal == before.discountTotal - DiscountAmount(gone)
  {
    var items := prev.items;
    RemoveUniqueItem(items, k);
    SumDrop(items, k, AfterDiscount);
    SumDrop(items, k, TaxAmount);
    SumDrop(items, k, DiscountAmount);
  }

  // ---------------------------------------------------------------------
  // updateInvoiceField (lines 93-102)
  // ---------------------------------------------------------------------

  /** The keys of an Invoice. */
  datatype FieldKey =
    | IdKey | InvoiceNumberKey | DateKey | DueDateKey | CompanyKey | ClientKey | ItemsKey
    | NotesKey | TermsKey | SubtotalKey | TaxTotalKey | DiscountTotalKey | TotalKey
    | CurrencyKey | StatusKey | PaymentMethodKey | CreatedAtKey | UpdatedAtKey
  {
    predicate IsAggregate()
    {
      this == SubtotalKey || this == TaxTotalKey || this == DiscountTotalKey || this == TotalKey
    }
  }

  /** A key together with a value of that key's type: the arguments of updateInvoiceField. */
  datatype FieldValue =
    | SetId(id: string)
    | SetInvoiceNumber(invoiceNumber: string)
    | SetDate(date: string)
    | SetDueDate(dueDate: string)
    | SetCompany(company: Company)
    | SetClient(client: Client)
    | SetItems(items: seq<InvoiceItem>)
    | SetNotes(notes: string)
    | SetTerms(terms: string)
    | SetSubtotal(subtotal: real)
    | SetTaxTotal(taxTotal: real)
    | SetDiscountTotal(discountTotal: real)
    | SetTotal(total: real)
    | SetCurrency(currency: string)
    | SetStatus(status: Status)
    | SetPaymentMethod(paymentMethod: Option<string>)
    | SetCreatedAt(createdAt: string)
    | SetUpdatedAt(updatedAt: string)
  {
    function Key(): FieldKey
    {
      match this
      case SetId(_) => IdKey
      case SetInvoiceNumber(_) => InvoiceNumberKey
      case SetDate(_) => DateKey
      case SetDueDate(_) => DueDateKey
      case SetCompany(_) => CompanyKey
      case SetClient(_) => ClientKey
      case SetItems(_) => ItemsKey
      case SetNotes(_) => NotesKey
      case SetTerms(_) => TermsKey
      case SetSubtotal(_) => SubtotalKey
      case SetTaxTotal(_) => TaxTotalKey
      case SetDiscountTotal(_) => DiscountTotalKey
      case SetTotal(_) => TotalKey
      case SetCurrency(_) => CurrencyKey
      case SetStatus(_) => StatusKey
      case SetPaymentMethod(_) => PaymentMethodKey
      case SetCreatedAt(_) => CreatedAtKey
      case SetUpdatedAt(_) => UpdatedAtKey
    }
  }

  /** `invoice[key]`, as a FieldValue. */
  function Read(invoice: Invoice, key: FieldKey): (v: FieldValue)
    ensures v.Key() == key
  {
    match key
    case IdKey => SetId(invoice.id)
    case InvoiceNumberKey => SetInvoiceNumber(invoice.invoiceNumber)
    case DateKey => SetDate(invoice.date)
    case DueDateKey => SetDueDate(invoice.dueDate)
    case CompanyKey => SetCompany(invoice.company)
    case ClientKey => SetClient(invoice.client)
    case ItemsKey => SetItems(invoice.items)
    case NotesKey => SetNotes(invoice.notes)
    case TermsKey => SetTerms(invoice.terms)
    case SubtotalKey => SetSubtotal(invoice.subtotal)
    case TaxTotalKey => SetTaxTotal(invoice.taxTotal)
    case DiscountTotalKey => SetDiscountTotal(invoice.discountTotal)
    case TotalKey => SetTotal(invoice.total)
    case CurrencyKey => SetCurrency(invoice.currency)
    case StatusKey => SetStatus(invoice.status)
    case PaymentMethodKey => SetPaymentMethod(invoice.paymentMethod)
    case CreatedAtKey => SetCreatedAt(invoice.createdAt)
    case UpdatedAtKey => SetUpdatedAt(invoice.updatedAt)
  }

  /** `{ ...invoice, [field]: value }`. */
  function Write(invoice: Invoice, f: FieldValue): (r: Invoice)
    ensures Read(r, f.Key()) == f
    ensures forall k :: k != f.Key() ==> Read(r, k) == Read(invoice, k)
  {
    match f
    case SetId(v) => invoice.(id := v)
    case SetInvoiceNumber(v) => invoice.(invoiceNumber := v)
    case SetDate(v) => invoice.(date := v)
    case SetDueDate(v) => invoice.(dueDate := v)
    case SetCompany(v) => invoice.(company := v)
    case SetClient(v) => invoice.(client := v)
    case SetItems(v) => invoice.(items := v)
    case SetNotes(v) => invoice.(notes := v)
    case SetTerms(v) => invoice.(terms := v)
    case SetSubtotal(v) => invoice.(subtotal := v)
    case SetTaxTotal(v) => invoice.(taxTotal := v)
    case SetDiscountTotal(v) => invoice.(discountTotal := v)
    case SetTotal(v) => invoice.(total := v)
    case SetCurrency(v) => invoice.(currency := v)
    case SetStatus(v) => invoice.(status := v)
    case SetPaymentMethod(v) => invoice.(paymentMethod := v)
    case SetCreatedAt(v) => invoice.(createdAt := v)
    case SetUpdatedAt(v) => invoice.(updatedAt := v)
  }

  /**
   * updateInvoiceField: write the field, stamp `updatedAt`, and recalculate
   * only when the field written is `items`.
   */
  function UpdateInvoiceFieldIn(prev: Invoice, f: FieldValue, now: string): (r: Invoice)
    ensures r.updatedAt == now
    // a field other than items and updatedAt reads back as written ...
    ensures f.Key() != ItemsKey && f.Key() != UpdatedAtKey ==> Read(r, f.Key()) == f
    // ... and nothing but it and updatedAt changes
    ensures f.Key() != ItemsKey ==>
      forall k :: k != f.Key() && k != UpdatedAtKey ==> Read(r, k) == Read(prev, k)
    // writing items recalculates: fresh item totals, consistent aggregates
    ensures f.Key() == ItemsKey ==>
      r.items == RecalculateItems(f.items) && Consistent(r) && TotalsOf(r) == ExpectedTotals(f.items)
    // ... and changes no field outside the items, the aggregates and updatedAt
    ensures f.Key() == ItemsKey ==>
      r.(items := prev.items, subtotal := prev.subtotal, taxTotal := prev.taxTotal,
         discountTotal := prev.discountTotal, total := prev.total, updatedAt := prev.updatedAt) == prev
  {
    var updatedInvoice := Write(prev, f).(updatedAt := now);
    if f.Key() == ItemsKey then
      RecalculateIsConsistent(updatedInvoice, now);
      AggregatesMatchItemEngine(updatedInvoice, now);
      RecalculateInvoice(updatedInvoice, now)
    else
      assert forall k :: k != UpdatedAtKey ==> Read(updatedInvoice, k) == Read(Write(prev, f), k);
      updatedInvoice
  }

  /** Writing any field but an aggregate keeps a consistent invoice consistent. */
  lemma FieldEditPreservesConsistency(prev: Invoice, f: FieldValue, now: string)
    requires Consistent(prev) && !f.Key().IsAggregate()
    ensures Consistent(UpdateInvoiceFieldIn(prev, f, now))
  {
    if f.Key() != ItemsKey {
      var r := UpdateInvoiceFieldIn(prev, f, now);
      assert Read(r, ItemsKey) == Read(prev, ItemsKey);
      assert Read(r, SubtotalKey) == Read(prev, SubtotalKey);
      assert Read(r, TaxTotalKey) == Read(prev, TaxTotalKey);
      assert Read(r, DiscountTotalKey) == Read(prev, DiscountTotalKey);
      assert Read(r, TotalKey) == Read(prev, TotalKey);
    }
  }

  /**
   * Writing an aggregate field directly is not recalculated: a new subtotal
   * leaves the invoice inconsistent with its items.
   */
  lemma SubtotalWriteBreaksConsistency(prev: Invoice, x: real, now: string)
    requires Consistent(prev) && x != prev.subtotal
    ensures !Consistent(UpdateInvoiceFieldIn(prev, SetSubtotal(x), now))
  {
    var r := UpdateInvoiceFieldIn(prev, SetSubtotal(x), now);
    assert Read(r, ItemsKey) == Read(prev, ItemsKey);
  }

  // ---------------------------------------------------------------------
  // createNewInvoice (lines 108-134)
  // ---------------------------------------------------------------------

  /** The blank invoice createNewInvoice installs. */
  function NewInvoice(invoiceId: string, random: real, date: string, dueDate: string, now: string): (r: Invoice)
    requires 0.0 <= random < 1.0
    ensures r.items == [] && TotalsOf(r) == Totals(0.0, 0.0, 0.0, 0.0)
    ensures r.status == Draft && r.currency == "USD"
    ensures r.company == SampleCompany && r.client == SampleClient
    ensures r.id == invoiceId && r.date == date && r.dueDate == dueDate
    ensures |r.invoiceNumber| == 9 && r.invoiceNumber[..4] == "INV-"
    ensures r.notes == "" && r.terms == "Payment due within 30 days." && r.paymentMethod == None
    ensures r.createdAt == now && r.updatedAt == now
    ensures Consistent(r)
  {
    Invoice(invoiceId, InvoiceNumber(random), date, dueDate, SampleCompany, SampleClient, [],
            "", "Payment due within 30 days.", 0.0, 0.0, 0.0, 0.0, "USD", Draft, None, now, now)
  }

  /** Recalculating a new invoice changes no monetary field. */
  lemma NewInvoiceStable(invoiceId: string, random: real, date: string, dueDate: string, now: string, later: string)
    requires 0.0 <= random < 1.0
    ensures var blank := NewInvoice(invoiceId, random, date, dueDate, now);
      RecalculateInvoice(blank, later) == blank.(updatedAt := later)
  {
  }

  // ---------------------------------------------------------------------
  // The provider: one mutable cell
  // ---------------------------------------------------------------------

  class InvoiceProvider {
    var currentInvoice: Invoice

    /** `useState(createSampleInvoice())`. */
    constructor (invoiceId: string, itemIds: seq<string>, random: real,
                 date: string, dueDate: string, now: string)
      requires |itemIds| == 3 && 0.0 <= random < 1.0
      ensures currentInvoice == CreateSampleInvoice(invoiceId, itemIds, random, date, dueDate, now)
    {
      currentInvoice := CreateSampleInvoice(invoiceId, itemIds, random, date, dueDate, now);
    }

    method SetInvoice(invoice: Invoice)
      modifies this
      ensures currentInvoice == invoice
    {
      currentInvoice := invoice;
    }

    method UpdateCompany(company: Company, now: string)
      modifies this
      ensures currentInvoice == old(currentInvoice).(company := company, updatedAt := now)
      ensures Consistent(old(currentInvoice)) ==> Consistent(currentInvoice)
    {
      currentInvoice := currentInvoice.(company := company, updatedAt := now);
    }

    method UpdateClient(client: Client, now: string)
      modifies this
      ensures currentInvoice == old(currentInvoice).(client := client, updatedAt := now)
      ensures Consistent(old(currentInvoice)) ==> Consistent(currentInvoice)
    {
      currentInvoice := currentInvoice.(client := client, updatedAt := now);
    }

    method AddItem(newId: string, now: string)
      modifies this
      ensures currentInvoice == AddItemTo(old(currentInvoice), newId, now)
      ensures Consistent(currentInvoice)
      ensures TotalsOf(currentInvoice) == ExpectedTotals(old(currentInvoice).items)
      // stored aggregates that already matched the items are left unchanged
      ensures TotalsOf(old(currentInvoice)) == ExpectedTotals(old(currentInvoice).items) ==>
        TotalsOf(currentInvoice) == TotalsOf(old(currentInvoice))
    {
      currentInvoice := AddItemTo(currentInvoice, newId, now);
    }

    method UpdateItem(id: string, itemUpdates: ItemUpdate, now: string)
      modifies this
      ensures currentInvoice == UpdateItemIn(old(currentInvoice), id, itemUpdates, now)
      ensures Consistent(currentInvoice)
    {
      currentInvoice := UpdateItemIn(currentInvoice, id, itemUpdates, now);
    }

    method RemoveItem(id: string, now: string)
      modifies this
      ensures currentInvoice == RemoveItemFrom(old(currentInvoice), id, now)
      ensures Consistent(currentInvoice)
    {
      currentInvoice := RemoveItemFrom(currentInvoice, id, now);
    }

    method UpdateInvoiceField(f: FieldValue, now: string)
      modifies this
      ensures currentInvoice == UpdateInvoiceFieldIn(old(currentInvoice), f, now)
      ensures Consistent(old(currentInvoice)) && !f.Key().IsAggregate() ==> Consistent(currentInvoice)
    {
      if Consistent(currentInvoice) && !f.Key().IsAggregate() {
        FieldEditPreservesConsistency(currentInvoice, f, now);
      }
      currentInvoice := UpdateInvoiceFieldIn(currentInvoice, f, now);
    }

    method ResetInvoice(invoiceId: string, itemIds: seq<string>, random: real,
                        date: string, dueDate: string, now: string)
      requires |itemIds| == 3 && 0.0 <= random < 1.0
      modifies this
      ensures currentInvoice == CreateSampleInvoice(invoiceId, itemIds, random, date, dueDate, now)
    {
      currentInvoice := CreateSampleInvoice(invoiceId, itemIds, random, date, dueDate, now);
    }

    method CreateNewInvoice(invoiceId: string, random: real, date: string, dueDate: string, now: string)
      requires 0.0 <= random < 1.0
      modifies this
      ensures currentInvoice == NewInvoice(invoiceId, random, date, dueDate, now)
      ensures Consistent(currentInvoice)
    {
      currentInvoice := NewInvoice(invoiceId, random, date, dueDate, now);
    }
  }
}
