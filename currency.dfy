/**
  src/currency.rs: the `Currency` conversions written against the registry's
  code table (`crate::symbols::get_symbol`).
 */
module FerCurrency {
  import Symbols
  import Fer
  import opened Snapshot

  /** `Currency::convert_into`: base currency to `currency`; it panics exactly when the code has no rate. */
  function ConvertInto(c: Currency, currency: Symbols.Symbol, amount: real): (r: Conversion)
    ensures r.Converted? <==> Symbols.GetSymbol(currency) in c.rates
    ensures r.RateNotFound? ==> r.key == Symbols.GetSymbol(currency)
  {
    Into(c, Symbols.GetSymbol(currency), amount)
  }

  /** `Currency::convert_from`: `currency` to the base currency; the base is looked up first. */
  function ConvertFrom(c: Currency, currency: Symbols.Symbol, amount: real): (r: Conversion)
    requires PositiveRates(c)
    ensures r.Converted? <==> c.base in c.rates && Symbols.GetSymbol(currency) in c.rates
    ensures c.base !in c.rates ==> r == RateNotFound(c.base)
    ensures c.base in c.rates && r.RateNotFound? ==> r.key == Symbols.GetSymbol(currency)
  {
    From(c, Symbols.GetSymbol(currency), amount)
  }

  /** On the same record, this draft and lib.rs give identical results and identical panics. */
  lemma AgreesWithLib(c: Currency, currency: Symbols.Symbol, amount: real)
    requires PositiveRates(c)
    ensures ConvertInto(c, currency, amount) == Fer.ConvertInto(c, currency, amount)
    ensures ConvertFrom(c, currency, amount) == Fer.ConvertFrom(c, currency, amount)
  {
  }

  /** Converting the base's own symbol back into the base is the identity. */
  lemma ConvertFromSelf(c: Currency, currency: Symbols.Symbol, amount: real)
    requires PositiveRates(c)
    requires Symbols.GetSymbol(currency) == c.base && c.base in c.rates
    ensures ConvertFrom(c, currency, amount) == Converted(amount)
  {
  }

  /** The doc-test of `new`: with base "USD", one dollar converts back from dollars unchanged. */
  lemma UsdDocTest(c: Currency)
    requires PositiveRates(c)
    requires c.base == "USD" && "USD" in c.rates
    ensures ConvertFrom(c, Symbols.Usd, 1.0) == Converted(1.0)
  {
    ConvertFromSelf(c, Symbols.Usd, 1.0);
  }
}
