/**
 * The invoice data shapes (src/types/index.ts). Every monetary quantity
 * (quantity, price, rate, discount, total) is an exact `real`; strings are `seq<char>`; identifiers and
 * timestamps are opaque strings supplied by the caller.
 */
module InvoiceTypes {

  datatype Option<+T> = None | Some(value: T)

  /** How an item's `discount` is read: relative to the line subtotal, or an absolute amount. */
  datatype DiscountType = Percentage | Fixed

  /** One billable row. `total` is derived: it is overwritten by every recalculation. */
  datatype InvoiceItem = InvoiceItem(
    id: string,
    description: string,
    quantity: real,
    unitPrice: real,
    taxRate: real,
    discount: real,
    discountType: DiscountType,
    total: real)

  datatype Company = Company(
    name: string,
    address: string,
    city: string,
    state: string,
    zipCode: string,
    country: string,
    phone: string,
    email: string,
    website: string,
    taxId: string,
    logo: Option<string>)

  datatype Client = Client(
    name: string,
    address: string,
    city: string,
    state: string,
    zipCode: string,
    country: string,
    phone: string,
    email: string,
    taxId: string)

  datatype Status = Draft | Sent | Paid | Overdue

  /**
   * An invoice snapshot. `subtotal`, `taxTotal`, `discountTotal` and `total`
   * are the derived aggregates; `currency` is free text (the form writes any
   * string into it), looked up in the currency table only for display.
   */
  datatype Invoice = Invoice(
    id: string,
    invoiceNumber: string,
    date: string,
    dueDate: string,
    company: Company,
    client: Client,
    items: seq<InvoiceItem>,
    notes: string,
    terms: string,
    subtotal: real,
    taxTotal: real,
    discountTotal: real,
    total: real,
    currency: string,
    status: Status,
    paymentMethod: Option<string>,
    createdAt: string,
    updatedAt: string)

  /** The four aggregate fields of an invoice, taken together. */
  datatype Totals = Totals(subtotal: real, taxTotal: real, discountTotal: real, total: real)

  function TotalsOf(invoice: Invoice): Totals
  {
    Totals(invoice.subtotal, invoice.taxTotal, invoice.discountTotal, invoice.total)
  }
}
