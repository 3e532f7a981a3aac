/**
  The currency symbol registry of src/types/symbols.rs: a closed enumeration
  of 31 currencies, the total table from each variant to its three-letter
  code, the default variant, and the table-driven inverse of the code table.
 */
module Symbols {
  import opened Wrappers

  /** The 31 supported currencies, in declaration order. */
  datatype Symbol =
    | Cad | Hkd | Isk | Php | Dkk | Huf | Czk | Gbp | Ron | Sek | Idr
    | Brl | Rub | Hrk | Jpy | Thb | Chf | Eur | Myr | Bgn | Try | Cny
    | Nok | Nzd | Zar | Usd | Sgd | Aud | Ils | Krw | Pln

  /** An uppercase ASCII letter. */
  predicate IsUpperLetter(ch: char) {
    'A' <= ch <= 'Z'
  }

  /** A well-formed currency code: exactly three uppercase ASCII letters. */
  predicate IsCode(code: string) {
    |code| == 3 && forall i :: 0 <= i < |code| ==> IsUpperLetter(code[i])
  }

  /** The position of a variant in the declaration (its enum discriminant). */
  function Ordinal(s: Symbol): (n: nat)
    ensures n < 31
  {
    match s
    case Cad => 0
    case Hkd => 1
    case Isk => 2
    case Php => 3
    case Dkk => 4
    case Huf => 5
    case Czk => 6
    case Gbp => 7
    case Ron => 8
    case Sek => 9
    case Idr => 10
    case Brl => 11
    case Rub => 12
    case Hrk => 13
    case Jpy => 14
    case Thb => 15
    case Chf => 16
    case Eur => 17
    case Myr => 18
    case Bgn => 19
    case Try => 20
    case Cny => 21
    case Nok => 22
    case Nzd => 23
    case Zar => 24
    case Usd => 25
    case Sgd => 26
    case Aud => 27
    case Ils => 28
    case Krw => 29
    case Pln => 30
  }

  /** The variant declared at position `n`. */
  function FromOrdinal(n: nat): Symbol
    requires n < 31
  {
    match n
    case 0 => Cad
    case 1 => Hkd
    case 2 => Isk
    case 3 => Php
    case 4 => Dkk
    case 5 => Huf
    case 6 => Czk
    case 7 => Gbp
    case 8 => Ron
    case 9 => Sek
    case 10 => Idr
    case 11 => Brl
    case 12 => Rub
    case 13 => Hrk
    case 14 => Jpy
    case 15 => Thb
    case 16 => Chf
    case 17 => Eur
    case 18 => Myr
    case 19 => Bgn
    case 20 => Try
    case 21 => Cny
    case 22 => Nok
    case 23 => Nzd
    case 24 => Zar
    case 25 => Usd
    case 26 => Sgd
    case 27 => Aud
    case 28 => Ils
    case 29 => Krw
    case _ => Pln
  }

  /** Positions and variants are in one-to-one correspondence. */
  lemma OrdinalBijective(s: Symbol, n: nat)
    ensures FromOrdinal(Ordinal(s)) == s
    ensures n < 31 ==> Ordinal(FromOrdinal(n)) == n
  {
  }

  /** The first `n` variants of the declaration. */
  ghost function Declared(n: nat): set<Symbol>
    requires n <= 31
  {
    if n == 0 then {} else Declared(n - 1) + {FromOrdinal(n - 1)}
  }

  /** The first `n` variants are exactly those at positions below `n`, and there are `n` of them. */
  lemma {:induction false} DeclaredShape(n: nat)
    requires n <= 31
    ensures |Declared(n)| == n
    ensures forall s :: s in Declared(n) <==> Ordinal(s) < n
  {
    if n > 0 {
      DeclaredShape(n - 1);
      var x := FromOrdinal(n - 1);
      OrdinalBijective(x, n - 1);
      assert x !in Declared(n - 1);
      forall s ensures s in Declared(n) <==> Ordinal(s) < n {
        OrdinalBijective(s, n - 1);
      }
    }
  }

  /** Every variant. */
  ghost const AllSymbols: set<Symbol> := Declared(31)

  /** The codes of a set of variants. */
  ghost function CodesOf(xs: set<Symbol>): set<string> {
    set s | s in xs :: GetSymbol(s)
  }

  /** The set of all codes the registry hands out. */
  ghost const AllCodes: set<string> := CodesOf(AllSymbols)

  /** `get_symbol`: the canonical code of a variant; every code is well formed. */
  function GetSymbol(s: Symbol): (code: string)
    ensures IsCode(code)
  {
    match s
    case Cad => "CAD"
    case Hkd => "HKD"
    case Isk => "ISK"
    case Php => "PHP"
    case Dkk => "DKK"
    case Huf => "HUF"
    case Czk => "CZK"
    case Gbp => "GBP"
    case Ron => "RON"
    case Sek => "SEK"
    case Idr => "IDR"
    case Brl => "BRL"
    case Rub => "RUB"
    case Hrk => "HRK"
    case Jpy => "JPY"
    case Thb => "THB"
    case Chf => "CHF"
    case Eur => "EUR"
    case Myr => "MYR"
    case Bgn => "BGN"
    case Try => "TRY"
    case Cny => "CNY"
    case Nok => "NOK"
    case Nzd => "NZD"
    case Zar => "ZAR"
    case Usd => "USD"
    case Sgd => "SGD"
    case Aud => "AUD"
    case Ils => "ILS"
    case Krw => "KRW"
    case Pln => "PLN"
  }

  /** `Symbol::default()`: the US dollar. */
  function Default(): (s: Symbol)
    ensures GetSymbol(s) == "USD"
  {
    Usd
  }

  /**
    The inverse of the code table: the variant whose code is exactly `code`,
    or None for any other string (no case folding, no fallback).
   */
  function FromCode(code: string): (r: Option<Symbol>)
  {
    match code
    case "CAD" => Some(Cad)
    case "HKD" => Some(Hkd)
    case "ISK" => Some(Isk)
    case "PHP" => Some(Php)
    case "DKK" => Some(Dkk)
    case "HUF" => Some(Huf)
    case "CZK" => Some(Czk)
    case "GBP" => Some(Gbp)
    case "RON" => Some(Ron)
    case "SEK" => Some(Sek)
    case "IDR" => Some(Idr)
    case "BRL" => Some(Brl)
    case "RUB" => Some(Rub)
    case "HRK" => Some(Hrk)
    case "JPY" => Some(Jpy)
    case "THB" => Some(Thb)
    case "CHF" => Some(Chf)
    case "EUR" => Some(Eur)
    case "MYR" => Some(Myr)
    case "BGN" => Some(Bgn)
    case "TRY" => Some(Try)
    case "CNY" => Some(Cny)
    case "NOK" => Some(Nok)
    case "NZD" => Some(Nzd)
    case "ZAR" => Some(Zar)
    case "USD" => Some(Usd)
    case "SGD" => Some(Sgd)
    case "AUD" => Some(Aud)
    case "ILS" => Some(Ils)
    case "KRW" => Some(Krw)
    case "PLN" => Some(Pln)
    case _ => None
  }

  /** Decoding the code of a variant gives the variant back. */
  lemma FromCodeOfGetSymbol(s: Symbol)
    ensures FromCode(GetSymbol(s)) == Some(s)
  {
  }

  /** FromCode only ever answers a variant whose code is the string given. */
  lemma GetSymbolOfFromCode(code: string)
    ensures FromCode(code).Some? ==> GetSymbol(FromCode(code).value) == code
  {
  }

  /** Distinct variants have distinct codes. */
  lemma GetSymbolInjective(s: Symbol, t: Symbol)
    ensures GetSymbol(s) == GetSymbol(t) ==> s == t
  {
  }

  /** The enumeration is closed: AllSymbols lists every variant, 31 of them. */
  lemma AllSymbolsComplete(s: Symbol)
    ensures s in AllSymbols && |AllSymbols| == 31
  {
    DeclaredShape(31);
  }

  /** The registry hands out exactly 31 distinct codes, all well formed. */
  lemma AllCodesCount()
    ensures |AllCodes| == 31
    ensures forall code :: code in AllCodes ==> IsCode(code)
  {
    AllSymbolsComplete(Usd);
    ImageSize(AllSymbols);
    forall code | code in AllCodes ensures IsCode(code) {
      var s :| s in AllSymbols && code == GetSymbol(s);
    }
  }

  /** The code table maps a set of variants onto a set of codes of the same size. */
  lemma {:induction false} ImageSize(xs: set<Symbol>)
    ensures |CodesOf(xs)| == |xs|
    decreases |xs|
  {
    var image := CodesOf(xs);
    if xs != {} {
      var x :| x in xs;
      var rest := xs - {x};
      var restImage := CodesOf(rest);
      ImageSize(rest);
      assert image == restImage + {GetSymbol(x)};
      forall s | s in rest ensures GetSymbol(s) != GetSymbol(x) {
        GetSymbolInjective(s, x);
      }
      assert GetSymbol(x) !in restImage;
    } else {
      assert image == {};
    }
  }

  /** Spot values: Eur and Jpy have their ISO codes. */
  lemma SpotCodes()
    ensures GetSymbol(Eur) == "EUR" && GetSymbol(Jpy) == "JPY"
  {
  }
}
