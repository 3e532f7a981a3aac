/**
  The crate root of src/lib.rs: its own copy of the code table, and the
  Symbol-keyed conversions of `Currency`. The enum it declares lists the same
  31 variants in the same order as src/types/symbols.rs, so both are
  `Symbols.Symbol` here; the two code tables are kept apart and shown to agree.
 */
module Fer {
  import Symbols
  import opened Snapshot

  /** The code table of lib.rs; it agrees with the registry's on every variant. */
  function GetSymbol(s: Symbols.Symbol): (code: string)
    ensures code == Symbols.GetSymbol(s)
  {
    match s
    case Cad => "CAD"
    case Hkd => "HKD"
    case Isk => "ISK"
    case Php => "PHP"
    case Dkk => "DKK"
    case Huf => "HUF"
    case Czk => "CZK"
    case Gbp => "GBP"
    case Ron => "RON"
    case Sek => "SEK"
    case Idr => "IDR"
    case Brl => "BRL"
    case Rub => "RUB"
    case Hrk => "HRK"
    case Jpy => "JPY"
    case Thb => "THB"
    case Chf => "CHF"
    case Eur => "EUR"
    case Myr => "MYR"
    case Bgn => "BGN"
    case Try => "TRY"
    case Cny => "CNY"
    case Nok => "NOK"
    case Nzd => "NZD"
    case Zar => "ZAR"
    case Usd => "USD"
    case Sgd => "SGD"
    case Aud => "AUD"
    case Ils => "ILS"
    case Krw => "KRW"
    case Pln => "PLN"
  }

  /** `Currency::convert_into`: base currency to `currency`; it panics exactly when the code has no rate. */
  function ConvertInto(c: Currency, currency: Symbols.Symbol, amount: real): (r: Conversion)
    ensures r.Converted? <==> Symbols.GetSymbol(currency) in c.rates
    ensures r.RateNotFound? ==> r.key == Symbols.GetSymbol(currency)
  {
    Into(c, GetSymbol(currency), amount)
  }

  /**
    `Currency::convert_from`: `currency` to the base currency; it panics when
    the base has no rate (checked first) or the code has none.
   */
  function ConvertFrom(c: Currency, currency: Symbols.Symbol, amount: real): (r: Conversion)
    requires PositiveRates(c)
    ensures r.Converted? <==> c.base in c.rates && Symbols.GetSymbol(currency) in c.rates
    ensures c.base !in c.rates ==> r == RateNotFound(c.base)
    ensures c.base in c.rates && r.RateNotFound? ==> r.key == Symbols.GetSymbol(currency)
  {
    From(c, GetSymbol(currency), amount)
  }

  /** Converting the base's own symbol back into the base is the identity. */
  lemma ConvertFromSelf(c: Currency, currency: Symbols.Symbol, amount: real)
    requires PositiveRates(c)
    requires Symbols.GetSymbol(currency) == c.base && c.base in c.rates
    ensures ConvertFrom(c, currency, amount) == Converted(amount)
  {
  }

  /** With the base normalised to rate 1, convert_from undoes convert_into (in real arithmetic). */
  lemma ConvertRoundTrip(c: Currency, currency: Symbols.Symbol, amount: real)
    requires PositiveRates(c)
    requires c.base in c.rates && c.rates[c.base] == 1.0
    requires Symbols.GetSymbol(currency) in c.rates
    ensures ConvertInto(c, currency, amount).Converted?
    ensures ConvertFrom(c, currency, ConvertInto(c, currency, amount).amount) == Converted(amount)
  {
  }

  /**
    The crate's test and doc-test: a snapshot fetched for USD has base "USD"
    with rate 1, so one dollar converts into one dollar, and a million (or
    one) dollars convert back from dollars unchanged.
   */
  lemma UsdSnapshotExamples(c: Currency)
    requires PositiveRates(c)
    requires c.base == "USD" && "USD" in c.rates && c.rates["USD"] == 1.0
    ensures ConvertInto(c, Symbols.Usd, 1.0) == Converted(1.0)
    ensures ConvertFrom(c, Symbols.Usd, 1000000.0) == Converted(1000000.0)
    ensures ConvertFrom(c, Symbols.Usd, 1.0) == Converted(1.0)
  {
  }

  /**
    Worked cases: a USD snapshot quoting 110 yen per dollar turns 100 dollars
    into 11000 yen and 11000 yen back into 100 dollars; a GBP snapshot quoting
    1.3 dollars per pound turns 1000 pounds into 1300 dollars. These values
    are exact in IEEE-754 double arithmetic as well.
   */
  lemma WorkedExamples()
    ensures var usd := Currency(map["USD" := 1.0, "JPY" := 110.0], "USD", "");
      && ConvertInto(usd, Symbols.Jpy, 100.0) == Converted(11000.0)
      && ConvertFrom(usd, Symbols.Jpy, 11000.0) == Converted(100.0)
    ensures var gbp := Currency(map["GBP" := 1.0, "USD" := 1.3], "GBP", "");
      ConvertInto(gbp, Symbols.Usd, 1000.0) == Converted(1300.0)
  {
  }
}
