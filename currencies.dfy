/**
 * The currency table and its lookups (src/data/currencies.ts): eight
 * currencies, a lookup by code that falls back to the first entry, and the
 * placement of the symbol around the formatted amount. The locale-dependent
 * digit formatting (Intl.NumberFormat) is an abstract function parameter.
 */
module Currencies {
  import opened InvoiceTypes

  datatype CurrencyCode = USD | EUR | GBP | CAD | AUD | JPY | CNY | INR
  {
    /** The code as it is written in an invoice's `currency` field. */
    function Text(): string
    {
      match this
      case USD => "USD"
      case EUR => "EUR"
      case GBP => "GBP"
      case CAD => "CAD"
      case AUD => "AUD"
      case JPY => "JPY"
      case CNY => "CNY"
      case INR => "INR"
    }
  }

  datatype SymbolPosition = Before | After

  datatype CurrencyInfo = CurrencyInfo(
    code: CurrencyCode,
    symbol: string,
    name: string,
    symbolPosition: SymbolPosition,
    decimalSeparator: string,
    thousandsSeparator: string,
    decimalPlaces: nat)

  /** The `currencies` table, in its declared order. */
  const Table: seq<CurrencyInfo> := [
    CurrencyInfo(USD, "$", "US Dollar", Before, ".", ",", 2),
    CurrencyInfo(EUR, "€", "Euro", Before, ",", ".", 2),
    CurrencyInfo(GBP, "£", "British Pound", Before, ".", ",", 2),
    CurrencyInfo(CAD, "CA$", "Canadian Dollar", Before, ".", ",", 2),
    CurrencyInfo(AUD, "A$", "Australian Dollar", Before, ".", ",", 2),
    CurrencyInfo(JPY, "¥", "Japanese Yen", Before, ".", ",", 0),
    CurrencyInfo(CNY, "¥", "Chinese Yuan", Before, ".", ",", 2),
    CurrencyInfo(INR, "₹", "Indian Rupee", Before, ".", ",", 2)
  ]

  /** `table.find(c => c.code === code)`, as the position of the first match. */
  function FindIndex(table: seq<CurrencyInfo>, code: string): (r: Option<nat>)
    ensures r.Some? ==> r.value < |table| && table[r.value].code.Text() == code
    ensures r.Some? ==> forall j :: 0 <= j < r.value ==> table[j].code.Text() != code
    ensures r.None? ==> forall j :: 0 <= j < |table| ==> table[j].code.Text() != code
  {
    if |table| == 0 then None
    else if table[0].code.Text() == code then Some(0)
    else
      match FindIndex(table[1..], code)
      case None => None
      case Some(i) => Some(i + 1)
  }

  /** Some entry of the table carries this code. */
  ghost predicate Listed(code: string)
  {
    exists i :: 0 <= i < |Table| && Table[i].code.Text() == code
  }

  /** getCurrencyByCode: the first entry with that code, else the first entry of the table. */
  function GetCurrencyByCode(code: string): (r: CurrencyInfo)
    ensures r in Table
    ensures Listed(code) ==> r.code.Text() == code
    ensures !Listed(code) ==> r == Table[0]
  {
    match FindIndex(Table, code)
    case Some(i) => Table[i]
    case None => Table[0]
  }

  /** Every code of the type is in the table, and a lookup by its text finds it. */
  lemma LookupFindsEveryCode(c: CurrencyCode)
    ensures GetCurrencyByCode(c.Text()).code == c
  {
    var i := match c
      case USD => 0 case EUR => 1 case GBP => 2 case CAD => 3
      case AUD => 4 case JPY => 5 case CNY => 6 case INR => 7;
    assert Table[i].code == c;
    assert Listed(c.Text());
    TextInjective(GetCurrencyByCode(c.Text()).code, c);
  }

  /** Different codes are written differently. */
  lemma TextInjective(c: CurrencyCode, d: CurrencyCode)
    requires c.Text() == d.Text()
    ensures c == d
  {
    assert c.Text()[0] == d.Text()[0] && c.Text()[1] == d.Text()[1];
  }

  /**
   * The table's codes are pairwise distinct, so the first-match rule never
   * has a second candidate: the result is determined by the code alone.
   */
  lemma CodesDistinct()
    ensures forall i, j :: 0 <= i < j < |Table| ==> Table[i].code != Table[j].code
  {
  }

  /** A code that no entry carries falls back to the US dollar. */
  lemma UnknownCodeFallsBackToDollar(code: string)
    requires forall c: CurrencyCode :: c.Text() != code
    ensures GetCurrencyByCode(code).code == USD && GetCurrencyByCode(code).symbol == "$"
  {
  }

  /** The yen is shown without decimals; every other lookup gives two. */
  lemma DecimalPlacesRule(code: string)
    ensures GetCurrencyByCode(code).decimalPlaces == if code == "JPY" then 0 else 2
  {
    var r := GetCurrencyByCode(code);
    if code == "JPY" {
      LookupFindsEveryCode(JPY);
    } else if r.code == JPY {
      assert !Listed(code) ==> r == Table[0];
    }
  }

  /** Every entry places its symbol before the amount. */
  lemma AllSymbolsBefore()
    ensures forall i :: 0 <= i < |Table| ==> Table[i].symbolPosition == Before
  {
  }

  /** The ternary on `symbolPosition`. */
  function PlaceSymbol(currency: CurrencyInfo, formattedNumber: string): string
  {
    if currency.symbolPosition == Before then currency.symbol + formattedNumber
    else formattedNumber + " " + currency.symbol
  }

  /**
   * Both branches keep the digits intact beside the symbol: before it with
   * nothing in between, or after it separated by one space.
   */
  lemma PlaceSymbolSplits(currency: CurrencyInfo, formattedNumber: string)
    ensures var r := PlaceSymbol(currency, formattedNumber);
      var n := |currency.symbol|;
      && (currency.symbolPosition == Before ==>
            |r| == n + |formattedNumber| && r[..n] == currency.symbol && r[n..] == formattedNumber)
      && (currency.symbolPosition == After ==>
            |r| == |formattedNumber| + 1 + n && r[..|formattedNumber|] == formattedNumber &&
            r[|formattedNumber|..] == " " + currency.symbol)
  {
  }

  /**
   * formatCurrency. `formatNumber(amount, places)` stands for the en-US
   * Intl.NumberFormat with exactly `places` fraction digits. Since every
   * entry is `Before`, the output is always the symbol followed by the digits.
   */
  function FormatCurrency(amount: real, currencyCode: string, formatNumber: (real, nat) -> string): (r: string)
    ensures var c := GetCurrencyByCode(currencyCode);
      |c.symbol| <= |r| && r[..|c.symbol|] == c.symbol &&
      r[|c.symbol|..] == formatNumber(amount, c.decimalPlaces)
  {
    var currency := GetCurrencyByCode(currencyCode);
    var formattedNumber := formatNumber(amount, currency.decimalPlaces);
    PlaceSymbol(currency, formattedNumber)
  }
}
