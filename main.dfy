/**
  The string-keyed draft of src/main.rs: the caller names a currency by text,
  which is uppercased before it is looked up. Uppercasing is modelled for
  ASCII letters only; the Unicode mappings of `to_uppercase` that land on
  ASCII letters (such as 'ı' to 'I') are not captured.
 */
module FerMain {
  import Symbols
  import FerCurrency
  import opened Snapshot

  /** A character that uppercasing changes. */
  predicate IsLowerLetter(ch: char) {
    'a' <= ch <= 'z'
  }

  /** The ASCII uppercase form of a character; everything but 'a'..'z' is left alone. */
  function UpperChar(ch: char): (u: char)
    ensures IsLowerLetter(ch) ==> Symbols.IsUpperLetter(u) && u as int == ch as int - 32
    ensures !IsLowerLetter(ch) ==> u == ch
  {
    if IsLowerLetter(ch) then (ch as int - 32) as char else ch
  }

  /** `str::to_uppercase`, restricted to ASCII: every character uppercased, none added or dropped. */
  function ToUpper(s: string): (u: string)
    ensures |u| == |s|
    ensures forall i :: 0 <= i < |s| ==> u[i] == UpperChar(s[i])
    ensures forall i :: 0 <= i < |u| ==> !IsLowerLetter(u[i])
  {
    if s == [] then [] else [UpperChar(s[0])] + ToUpper(s[1..])
  }

  /** A string with no lowercase letter is its own uppercase form; in particular every currency code is. */
  lemma ToUpperFixesUpper(s: string)
    requires forall i :: 0 <= i < |s| ==> !IsLowerLetter(s[i])
    ensures ToUpper(s) == s
  {
  }

  /** Uppercasing twice is uppercasing once. */
  lemma ToUpperIdempotent(s: string)
    ensures ToUpper(ToUpper(s)) == ToUpper(s)
  {
  }

  /** The code of every variant is unchanged by uppercasing. */
  lemma ToUpperFixesCode(s: Symbols.Symbol)
    ensures ToUpper(Symbols.GetSymbol(s)) == Symbols.GetSymbol(s)
  {
  }

  /** `Currency::convert_into`: base currency to the currency named by `preferred` in any case. */
  function ConvertInto(c: Currency, preferred: string, amount: real): (r: Conversion)
    ensures r.Converted? <==> ToUpper(preferred) in c.rates
    ensures r.RateNotFound? ==> r.key == ToUpper(preferred)
  {
    Into(c, ToUpper(preferred), amount)
  }

  /**
    `Currency::convert_from`: the currency named by `preferred` to the base
    currency. The stored base is looked up as it is, without uppercasing.
   */
  function ConvertFrom(c: Currency, preferred: string, amount: real): (r: Conversion)
    requires PositiveRates(c)
    ensures r.Converted? <==> c.base in c.rates && ToUpper(preferred) in c.rates
    ensures c.base !in c.rates ==> r == RateNotFound(c.base)
    ensures c.base in c.rates && r.RateNotFound? ==> r.key == ToUpper(preferred)
  {
    From(c, ToUpper(preferred), amount)
  }

  /** Two spellings with the same uppercase form convert identically, panics included. */
  lemma CaseInsensitive(c: Currency, p: string, q: string, amount: real)
    requires PositiveRates(c)
    requires ToUpper(p) == ToUpper(q)
    ensures ConvertInto(c, p, amount) == ConvertInto(c, q, amount)
    ensures ConvertFrom(c, p, amount) == ConvertFrom(c, q, amount)
  {
  }

  /** "jpy", "Jpy" and "JPY" all name the yen entry of the table. */
  lemma YenSpellings(c: Currency, amount: real)
    requires PositiveRates(c)
    ensures ConvertInto(c, "jpy", amount) == ConvertInto(c, "JPY", amount)
    ensures ConvertInto(c, "Jpy", amount) == ConvertInto(c, "JPY", amount)
    ensures ConvertFrom(c, "jpy", amount) == ConvertFrom(c, "JPY", amount)
    ensures ConvertFrom(c, "Jpy", amount) == ConvertFrom(c, "JPY", amount)
  {
  }

  /** Any key whose ASCII uppercase form is a variant's code converts exactly as the Symbol-keyed draft does for that variant. */
  lemma AgreesWithSymbolKeyed(c: Currency, preferred: string, s: Symbols.Symbol, amount: real)
    requires PositiveRates(c)
    requires ToUpper(preferred) == Symbols.GetSymbol(s)
    ensures ConvertInto(c, preferred, amount) == FerCurrency.ConvertInto(c, s, amount)
    ensures ConvertFrom(c, preferred, amount) == FerCurrency.ConvertFrom(c, s, amount)
  {
  }

  /** The code of a variant, passed as text, reaches the same entry as the variant itself. */
  lemma CodeAsText(c: Currency, s: Symbols.Symbol, amount: real)
    requires PositiveRates(c)
    ensures ConvertInto(c, Symbols.GetSymbol(s), amount) == FerCurrency.ConvertInto(c, s, amount)
    ensures ConvertFrom(c, Symbols.GetSymbol(s), amount) == FerCurrency.ConvertFrom(c, s, amount)
  {
    ToUpperFixesCode(s);
    AgreesWithSymbolKeyed(c, Symbols.GetSymbol(s), s, amount);
  }

  /** Converting a spelling of the base back into the base is the identity. */
  lemma ConvertFromSelf(c: Currency, preferred: string, amount: real)
    requires PositiveRates(c)
    requires ToUpper(preferred) == c.base && c.base in c.rates
    ensures ConvertFrom(c, preferred, amount) == Converted(amount)
  {
  }

  /** With the base normalised to rate 1, convert_from undoes convert_into (in real arithmetic). */
  lemma ConvertRoundTrip(c: Currency, preferred: string, amount: real)
    requires PositiveRates(c)
    requires c.base in c.rates && c.rates[c.base] == 1.0
    requires ToUpper(preferred) in c.rates
    ensures ConvertInto(c, preferred, amount).Converted?
    ensures ConvertFrom(c, preferred, ConvertInto(c, preferred, amount).amount) == Converted(amount)
  {
  }
}
