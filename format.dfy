/** The host environment the page runs in, and the price and date formatters
    with their fallbacks for missing values. */
module Format {
  import opened JsValue

  /** What the page takes from the browser: the `lang` query parameter, the
      page's base path, the internationalisation formatters and `JSON.stringify`.
      Each is an opaque function of its arguments. */
  datatype Host = Host(
    lang: Option<string>,
    basePath: string,
    formatCurrency: (string, string, Json) -> string,  // locale, currency code, amount
    formatLongDate: (string, Json) -> string,           // locale, date string
    stringify: Json -> string)

  const DefaultCurrency: string := "CHF"
  const Missing: string := "-"

  /** The currency code handed to the number formatter. */
  function CurrencyCode(currency: Value): (code: string)
    ensures Truthy(currency) ==> code == ToStr(currency)
    ensures !Truthy(currency) ==> code == DefaultCurrency
  {
    TextOr(currency, DefaultCurrency)
  }

  /** A price as currency text, or "-" when the price is falsy (absent, 0, ""). */
  function FormatPrice(price: Value, currency: Value, locale: string, host: Host): (text: string)
    ensures !Truthy(price) ==> text == Missing
    ensures Truthy(price) ==> text == host.formatCurrency(locale, CurrencyCode(currency), price.json)
  {
    if !Truthy(price) then Missing else host.formatCurrency(locale, CurrencyCode(currency), price.json)
  }

  /** A date as long-form text, or "-" when the date is falsy. */
  function FormatDate(date: Value, locale: string, host: Host): (text: string)
    ensures !Truthy(date) ==> text == Missing
    ensures Truthy(date) ==> text == host.formatLongDate(locale, date.json)
  {
    if !Truthy(date) then Missing else host.formatLongDate(locale, date.json)
  }
}
