/**
  The rate-table record that every draft of `Currency` holds (src/lib.rs,
  src/currency.rs, src/main.rs), and the two conversion formulas over a
  rate key. Each `self.rates.get(key).unwrap()` of the source becomes a
  lookup that reports the missing key instead of panicking.
 */
module Snapshot {

  /** One fetched snapshot: rates relative to `base`, and the as-of date (never read). */
  datatype Currency = Currency(rates: map<string, real>, base: string, date: string)

  /** The outcome of a conversion: the converted amount, or the key whose `unwrap` panics. */
  datatype Conversion = Converted(amount: real) | RateNotFound(key: string)

  /** The stated assumption on every feed: all rates are positive. */
  predicate PositiveRates(c: Currency) {
    forall k :: k in c.rates ==> c.rates[k] > 0.0
  }

  /** Base currency to the currency under `key`: `rate(key) * amount`. */
  function Into(c: Currency, key: string, amount: real): (r: Conversion)
    ensures r.Converted? <==> key in c.rates
    ensures key !in c.rates ==> r == RateNotFound(key)
  {
    if key in c.rates then Converted(c.rates[key] * amount) else RateNotFound(key)
  }

  /**
    Currency under `key` to the base currency: `rate(base) / rate(key) * amount`.
    The base is looked up first, so a missing base is the panic reported.
   */
  function From(c: Currency, key: string, amount: real): (r: Conversion)
    requires PositiveRates(c)
    ensures r.Converted? <==> c.base in c.rates && key in c.rates
    ensures c.base !in c.rates ==> r == RateNotFound(c.base)
    ensures c.base in c.rates && key !in c.rates ==> r == RateNotFound(key)
  {
    if c.base !in c.rates then RateNotFound(c.base)
    else if key !in c.rates then RateNotFound(key)
    else Converted(c.rates[c.base] / c.rates[key] * amount)
  }

  /** With the base normalised to rate 1, converting into the base leaves the amount as it is. */
  lemma IntoBaseIdentity(c: Currency, amount: real)
    requires c.base in c.rates && c.rates[c.base] == 1.0
    ensures Into(c, c.base, amount) == Converted(amount)
  {
  }

  /** Converting the base currency from itself is the identity, whatever the base's rate. */
  lemma FromSelfIdentity(c: Currency, key: string, amount: real)
    requires PositiveRates(c)
    requires key == c.base && key in c.rates
    ensures From(c, key, amount) == Converted(amount)
  {
  }

  /**
    From undoes Into up to the base's own rate (exactly, in real arithmetic):
    with a base rate of 1 the round trip gives back the amount.
   */
  lemma FromAfterInto(c: Currency, key: string, amount: real)
    requires PositiveRates(c)
    requires c.base in c.rates && key in c.rates
    ensures Into(c, key, amount).Converted?
    ensures From(c, key, Into(c, key, amount).amount) == Converted(c.rates[c.base] * amount)
    ensures c.rates[c.base] == 1.0 ==> From(c, key, Into(c, key, amount).amount) == Converted(amount)
  {
  }

  /** Into undoes From in the same sense: the amount comes back scaled by the base's rate. */
  lemma IntoAfterFrom(c: Currency, key: string, amount: real)
    requires PositiveRates(c)
    requires c.base in c.rates && key in c.rates
    ensures From(c, key, amount).Converted?
    ensures Into(c, key, From(c, key, amount).amount) == Converted(c.rates[c.base] * amount)
  {
  }

  /** The conversions read only `rates` and `base`: the date plays no part. */
  lemma DateIrrelevant(c: Currency, date: string, key: string, amount: real)
    requires PositiveRates(c)
    ensures Into(c.(date := date), key, amount) == Into(c, key, amount)
    ensures From(c.(date := date), key, amount) == From(c, key, amount)
  {
  }
}
