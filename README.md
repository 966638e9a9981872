# Invoice computation engine and invoice state container, in Dafny

This project models the core of an invoice builder:

- **The computation engine** (`calculateItemTotal`, `recalculateInvoice`). A line item's amount is
  computed in a fixed order. The line subtotal is quantity × unit price. A strictly positive
  discount is then taken off: a percentage of the line subtotal, or a fixed amount that is not
  capped. Tax is computed on the discounted base. Recalculating an invoice refreshes every item's
  `total`. It then derives `subtotal`, `taxTotal` and `discountTotal` with three separate `reduce`
  folds, and sets `total = subtotal + taxTotal`. Each fold callback carries its own copy of the
  discount rule, and the model keeps those copies. The central lemmas prove that the copies agree
  with the per-item engine, that the folds never read a stored `total`, and that the aggregates
  are additive, idempotent and independent of item order.
- **The state container** (`InvoiceProvider`). It holds one mutable `currentInvoice`, which is
  replaced wholesale by `setInvoice`, `updateCompany`, `updateClient`, `addItem`, `updateItem`,
  `removeItem`, `updateInvoiceField`, `resetInvoice` and `createNewInvoice`. The new value each
  operation builds is a pure function (`AddItemTo`, `UpdateItemIn`, `RemoveItemFrom`,
  `UpdateInvoiceFieldIn`, `NewInvoice`). The class `InvoiceContext.InvoiceProvider` has the
  `currentInvoice` field and one method per operation.
- **The currency table** (`currencies`, `getCurrencyByCode`, `formatCurrency`). The table holds
  eight entries. The lookup returns the first entry with a matching code and falls back to the
  first entry (USD). The symbol is placed before or after the formatted digits.
- **The sample data** that the container starts from, and the `INV-nnnnn` invoice-number format.

Every monetary quantity is an exact `real`. Ids, clock readings, `Math.random()` and formatted dates are
parameters. An invoice is *consistent* (`Calculations.Consistent`) when every item total and every
aggregate is what the items determine. After every item edit the invoice is consistent.

A zero quantity does not always give a zero item total. A positive fixed discount on a
zero-quantity line gives −discount·(1 + taxRate/100); `Calculations.ZeroQuantityTotal` states
exactly when the total is zero. The sample invoice stores item totals 1200 and 400, which are the
pre-tax amounts. `calculateItemTotal` gives 1302 and 434 for those items. Only the sample's
aggregates agree with recalculation (`SampleData.SampleItemTotalsStale`).

Files: `types.dfy` (the data shapes), `calculations.dfy`, `currencies.dfy`, `sample_data.dfy`,
`invoice_context.dfy`.

## Model

| member | source | states |
|---|---|---|
| `Calculations.CalculateItemTotal` | src/utils/calculations.ts:3-22 | the item total is (q·p − d)·(1 + taxRate/100); closed forms for no discount, a percentage discount and a fixed discount |
| `Calculations.NonPositiveDiscountIgnored` | src/utils/calculations.ts:7-14 | a zero or negative discount contributes nothing, whatever its type |
| `Calculations.FixedDiscountUncapped` | src/utils/calculations.ts:12-19 | a fixed discount above the line subtotal makes the tax base negative, the tax negative for a positive rate, and the total negative for a rate above −100% |
| `Calculations.ZeroQuantityTotal` | src/utils/calculations.ts:3-21 | with quantity 0 the total is 0 exactly when no positive fixed discount applies (or the rate is −100%) |
| `Calculations.PercentageExample` | src/utils/calculations.ts:3-21 | 2 × 50 with 10% discount and 10% tax: discount 10, base 90, tax 9, total 99 |
| `Calculations.FixedExample` | src/utils/calculations.ts:3-21 | 1 × 450 with fixed discount 50 and no tax: base 400, tax 0, total 400 |
| `Calculations.IgnoresStoredTotal` | src/utils/calculations.ts:3-21 | no part of the per-item computation reads the item's stored `total` |
| `Calculations.SubtotalContribution` | src/utils/calculations.ts:32-45 | the subtotal callback's own discount copy yields exactly the per-item post-discount base |
| `Calculations.TaxContribution` | src/utils/calculations.ts:48-64 | the tax callback yields the per-item tax, and subtotal share plus tax share equals `calculateItemTotal` |
| `Calculations.DiscountContribution` | src/utils/calculations.ts:67-80 | the discount callback yields the per-item discount, and the subtotal share is line subtotal minus it |
| `Calculations.RecalculateItems` | src/utils/calculations.ts:26-29 | same count and order; each item keeps every field but `total`, which becomes `calculateItemTotal(item)` |
| `Calculations.RecalculateInvoice` | src/utils/calculations.ts:24-94 | items refreshed, total = subtotal + taxTotal, `updatedAt` set to the clock, every other field carried through |
| `Calculations.AggregatesMatchItemEngine` | src/utils/calculations.ts:26-80 | the three folds equal the sums of the per-item base, tax and discount over the input items: subtotal = Σ base, taxTotal = Σ tax, discountTotal = Σ discount, and total = subtotal + taxTotal |
| `Calculations.GrandTotalIsSumOfItemTotals` | src/utils/calculations.ts:26-83 | subtotal + taxTotal is the sum of the refreshed item totals, and total is the sum of `calculateItemTotal` |
| `Calculations.SubtotalIsGrossLessDiscount` | src/utils/calculations.ts:32-80 | subtotal = Σ q·p − discountTotal |
| `Calculations.EmptyInvoiceTotals` | src/utils/calculations.ts:32-83 | no items gives all four aggregates 0 |
| `Calculations.RecalculateIdempotent` | src/utils/calculations.ts:24-94 | recalculating twice equals recalculating once (up to the clock reading) |
| `Calculations.RecalculatePermutationInvariant` | src/utils/calculations.ts:32-83 | permuting the items leaves all four aggregates unchanged |
| `Calculations.RecalculateIsConsistent` | src/utils/calculations.ts:24-94 | every recalculated invoice is consistent |
| `Calculations.ConsistentIffFixedPoint` | src/utils/calculations.ts:24-94 | consistent exactly when recalculation changes nothing |
| `Currencies.FindIndex` | src/data/currencies.ts:79 | the first position whose code matches, or none when no entry matches |
| `Currencies.GetCurrencyByCode` | src/data/currencies.ts:78-80 | the result is a table entry; its code is the one asked for whenever the table lists it, otherwise it is the first entry |
| `Currencies.LookupFindsEveryCode` | src/data/currencies.ts:3-80 | each of the eight codes is found by its text |
| `Currencies.CodesDistinct` | src/data/currencies.ts:3-76 | the eight table codes are pairwise distinct |
| `Currencies.UnknownCodeFallsBackToDollar` | src/data/currencies.ts:78-80 | an unknown code yields the USD entry, symbol `$` |
| `Currencies.DecimalPlacesRule` | src/data/currencies.ts:3-80 | lookup gives 0 decimal places for JPY and 2 for every other code |
| `Currencies.AllSymbolsBefore` | src/data/currencies.ts:3-76 | every entry places its symbol before the amount |
| `Currencies.PlaceSymbolSplits` | src/data/currencies.ts:90-92 | `before`: symbol then digits; `after`: digits, one space, symbol |
| `Currencies.FormatCurrency` | src/data/currencies.ts:82-93 | the output is the looked-up symbol followed by the digits formatted with its decimal places |
| `SampleData.InvoiceNumber` | src/data/sampleData.ts:38 | "INV-" followed by five digits, the first not 0 |
| `SampleData.CreateSampleInvoice` | src/data/sampleData.ts:31-86 | the three sample items with their ids, stored aggregates 1816, 136, 74, 1952 (total = subtotal + taxTotal), an `INV-` number, draft, USD, sample company and client, the sample notes and terms, `createdAt` = `updatedAt` = the clock reading |
| `SampleData.SampleAggregatesMatch` | src/data/sampleData.ts:43-80 | recalculating the sample gives 1816, 136, 74, 1952, the stored aggregates |
| `SampleData.SampleItemTotalsStale` | src/data/sampleData.ts:43-74 | stored item totals 1200 and 400 differ from the computed 1302 and 434; the sample is not consistent |
| `InvoiceContext.NewItemContributesNothing` | src/context/InvoiceContext.tsx:47-56 | a blank item adds 0 to every aggregate and its stored total 0 is already right |
| `InvoiceContext.MergeItemLaws` | src/context/InvoiceContext.tsx:71 | merging an update twice is merging it once; an empty update changes nothing |
| `InvoiceContext.UpdateItems` | src/context/InvoiceContext.tsx:70-72 | length kept; items with another id unchanged; items with the id merged |
| `InvoiceContext.UpdateUniqueItem` | src/context/InvoiceContext.tsx:70-72 | with unique ids, only the targeted position changes |
| `InvoiceContext.RemoveItems` | src/context/InvoiceContext.tsx:86 | the survivors are exactly the items without that id |
| `InvoiceContext.RemoveItemsKeepsOrder` | src/context/InvoiceContext.tsx:86 | filtering distributes over concatenation, so relative order is kept |
| `InvoiceContext.RemoveAbsentId` | src/context/InvoiceContext.tsx:86 | removing an absent id changes nothing |
| `InvoiceContext.RemoveUniqueItem` | src/context/InvoiceContext.tsx:86 | with unique ids, removing item k's id drops exactly position k |
| `InvoiceContext.AddItemTo` | src/context/InvoiceContext.tsx:46-66 | one blank item appended at the end, earlier items kept in order, result consistent; `updatedAt` is the clock reading and every field outside the items and aggregates is kept |
| `InvoiceContext.AddItemKeepsTotals` | src/context/InvoiceContext.tsx:47-64 | adding a blank item leaves all four aggregates as the earlier items determine them |
| `InvoiceContext.UpdateItemIn` | src/context/InvoiceContext.tsx:68-80 | untargeted items keep their inputs, targeted ones are merged, all totals refreshed, result consistent; `updatedAt` is the clock reading and every field outside the items and aggregates is kept |
| `InvoiceContext.UpdateItemAggregateDelta` | src/context/InvoiceContext.tsx:68-80 | with unique ids, each aggregate moves by exactly the merged item's share minus the old one's |
| `InvoiceContext.UpdateAbsentId` | src/context/InvoiceContext.tsx:70-78 | updating an absent id is only a recalculation |
| `InvoiceContext.RemoveItemFrom` | src/context/InvoiceContext.tsx:82-91 | items are the refreshed survivors, aggregates are those the survivors determine, result consistent; `updatedAt` is the clock reading and every field outside the items and aggregates is kept |
| `InvoiceContext.RemoveItemAggregateDelta` | src/context/InvoiceContext.tsx:82-91 | with unique ids, removing item k takes exactly its share out of each aggregate |
| `InvoiceContext.Write` | src/context/InvoiceContext.tsx:95-99 | the written key reads back as written; every other key reads as before |
| `InvoiceContext.UpdateInvoiceFieldIn` | src/context/InvoiceContext.tsx:93-102 | only the written field and `updatedAt` change, except that writing `items` recalculates, yields a consistent invoice, and changes nothing outside the items, the aggregates and `updatedAt` |
| `InvoiceContext.FieldEditPreservesConsistency` | src/context/InvoiceContext.tsx:93-102 | writing any non-aggregate field keeps a consistent invoice consistent |
| `InvoiceContext.SubtotalWriteBreaksConsistency` | src/context/InvoiceContext.tsx:93-102 | writing a new `subtotal` is not recalculated and leaves the invoice inconsistent |
| `InvoiceContext.NewInvoice` | src/context/InvoiceContext.tsx:108-131 | the given id, date and due date, an `INV-` number, empty items, aggregates 0, notes empty, the 30-day terms, no payment method, status draft, currency USD, sample company and client, `createdAt` = `updatedAt` = the clock reading, consistent |
| `InvoiceContext.NewInvoiceStable` | src/context/InvoiceContext.tsx:120-128 | recalculating a new invoice changes nothing but `updatedAt` |
| `InvoiceContext.InvoiceProvider.constructor` | src/context/InvoiceContext.tsx:24 | the initial state is the sample invoice |
| `InvoiceContext.InvoiceProvider.SetInvoice` | src/context/InvoiceContext.tsx:26-28 | the state becomes the given invoice |
| `InvoiceContext.InvoiceProvider.UpdateCompany` | src/context/InvoiceContext.tsx:30-36 | only `company` and `updatedAt` change; consistency kept |
| `InvoiceContext.InvoiceProvider.UpdateClient` | src/context/InvoiceContext.tsx:38-44 | only `client` and `updatedAt` change; consistency kept |
| `InvoiceContext.InvoiceProvider.AddItem` | src/context/InvoiceContext.tsx:46-66 | the state becomes `AddItemTo` of the old state: consistent, with the aggregates the earlier items determine; stored aggregates that already matched the items are left unchanged |
| `InvoiceContext.InvoiceProvider.UpdateItem` | src/context/InvoiceContext.tsx:68-80 | the state becomes `UpdateItemIn` of the old state, and is consistent |
| `InvoiceContext.InvoiceProvider.RemoveItem` | src/context/InvoiceContext.tsx:82-91 | the state becomes `RemoveItemFrom` of the old state, and is consistent |
| `InvoiceContext.InvoiceProvider.UpdateInvoiceField` | src/context/InvoiceContext.tsx:93-102 | the state becomes `UpdateInvoiceFieldIn` of the old state; consistency kept for non-aggregate fields |
| `InvoiceContext.InvoiceProvider.ResetInvoice` | src/context/InvoiceContext.tsx:104-106 | the state becomes a fresh sample invoice |
| `InvoiceContext.InvoiceProvider.CreateNewInvoice` | src/context/InvoiceContext.tsx:108-134 | the state becomes a blank, consistent invoice |

## Left out

- Floating point: the engine is modelled in exact real arithmetic. IEEE-754 rounding, `NaN` and `Infinity` propagation are not modelled.
- Input coercion (`parseFloat(v) || 0` in the form) belongs to the input layer and is not part of this model.
- `uuidv4`, `Math.random()`, `new Date().toISOString()` and date-fns `format` (including "today + 30 days") are parameters. The model assumes `Math.random()` lies in [0, 1).
- Clock readings: `addItem`, `updateItem`, `removeItem` and `updateInvoiceField('items', …)` read the clock twice (src/context/InvoiceContext.tsx:62+64, 76+78, 87+89, 98+100): once in their own spread and once inside `recalculateInvoice`, whose reading overwrites the first. The model uses one reading, `now`, for both, which loses nothing observable. `updateCompany`, `updateClient` and the other branch of `updateInvoiceField` read it once; `setInvoice` reads none. `createNewInvoice` and `createSampleInvoice` (hence `resetInvoice` and the initial state) read it four times (today, the due date, `createdAt`, `updatedAt`). The model gives them `date` and `dueDate` as parameters and one reading `now` for both `createdAt` and `updatedAt`, so it does not capture the two timestamps differing by a tick.
- Id uniqueness is not enforced by any operation (uuids make collisions practically impossible). The lemmas that rely on it take `UniqueIds` as a hypothesis.
- `Intl.NumberFormat` digit formatting is an abstract function parameter of `Currencies.FormatCurrency`. The table's `decimalSeparator` and `thousandsSeparator` are modelled as data; `formatCurrency` never reads them.
- A `Partial<InvoiceItem>` is modelled with absent keys only. A key present with the value `undefined` is not modelled.
- `useInvoice` (the React hook that throws outside a provider), React rendering, PDF export, e-mail sending and authentication are outside the engine and are not part of this model.
- The legacy invoice-level fields `tax`, `discount` and `taxRate`, read by some views, are not part of the `Invoice` type and are not modelled.
