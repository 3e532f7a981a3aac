# fer: currency symbols and rate-table conversion

A Dafny model of the core of `fer`, a small Rust client that fetches one
snapshot of foreign-exchange rates for a base currency and converts amounts
into and out of that base. The repository holds several drafts of the same
design, and each is modelled:

- `symbols.dfy` (module `Symbols`, from `src/types/symbols.rs`): the closed
  enumeration of 31 currencies, the `get_symbol` code table, `Symbol::default()`,
  and a table-driven inverse `FromCode`. The table is proved total and well
  formed (every code is three uppercase ASCII letters) and injective. Its
  image has exactly 31 codes, and decoding a code gives the variant back.
- `snapshot.dfy` (module `Snapshot`): the `Currency` record that every draft
  declares (`rates`, `base`, `date`). Also the two conversion formulas over a
  rate key: `rates[key] * amount`, and `rates[base] / rates[key] * amount`.
  Each `HashMap::get(..).unwrap()` becomes an explicit `RateNotFound(key)`
  outcome naming the key whose lookup panics. `convert_from` looks the base up
  first, so a missing base is the one reported.
- `lib.dfy` (module `Fer`, from `src/lib.rs`): the crate root's own copy of the
  code table, proved to agree with the registry's, and the Symbol-keyed
  `convert_into` / `convert_from`, with the crate's test and doc-test.
- `currency.dfy` (module `FerCurrency`, from `src/currency.rs`): the same
  conversions written against the registry's table. They are proved to agree
  with the lib.rs draft on every record whose rates are all positive, results
  and panics alike.
- `main.dfy` (module `FerMain`, from `src/main.rs`): the string-keyed draft.
  It uppercases the caller's key before the lookup and leaves the stored base
  as it is. Uppercasing here changes ASCII letters only. Under that
  uppercasing the conversions are proved case-insensitive, and any ASCII
  spelling of a variant's code converts exactly as the Symbol-keyed draft does.
- `wrappers.dfy` (module `Wrappers`): the `Option` type used by `FromCode`.

The lib.rs enum lists the same 31 variants, in the same order, as
`src/types/symbols.rs`. One datatype, `Symbols.Symbol`, stands for both. The
two `get_symbol` match tables stay separate definitions.

Amounts and rates are `f64` in the source and `real` here. Every snapshot
that `convert_from` reads is assumed to hold only positive rates
(`Snapshot.PositiveRates`). The identities `convert_from(base, a) == a` and
`convert_into(base, a) == a` (rate 1.0) are exact in IEEE-754 too. The round
trips (`FromAfterInto`, `IntoAfterFrom`, `ConvertRoundTrip`) hold only in
real arithmetic; floating point gives them only up to rounding.

The conversions take `&self` and change nothing. In the model they are
functions of an immutable datatype value, so that holds by construction.
`Snapshot.DateIrrelevant` shows that the `date` field plays no part.

The source panics on a missing rate. The model reports the panic as a value
(`RateNotFound`) instead of a crash. For the Symbol-keyed drafts, and for
string keys made of ASCII characters, that happens at exactly the inputs where
the source would panic. For other string keys, see `FerMain.ToUpper` under
"## Left out". The conversions never assume the base's own rate is 1.0: they
look it up as the code does, and the lemmas that need rate 1.0 say so.

## Model

| member | source | states |
|---|---|---|
| `Symbols.GetSymbol` | src/types/symbols.rs:41-75 | `get_symbol` is total, and every code it returns is exactly three uppercase ASCII letters |
| `Symbols.Default` | src/types/symbols.rs:35-39 | `Symbol::default()` is the variant whose code is "USD" |
| `Symbols.SpotCodes` | src/types/symbols.rs:57-60 | Jpy maps to "JPY" and Eur to "EUR" |
| `Symbols.Ordinal` | src/types/symbols.rs:1-33 | each variant's declaration position is below 31 |
| `Symbols.OrdinalBijective` | src/types/symbols.rs:1-33 | declaration positions 0..30 and variants correspond one to one |
| `Symbols.DeclaredShape` | src/types/symbols.rs:1-33 | the first n declared variants are exactly those at positions below n, and there are n of them |
| `Symbols.AllSymbolsComplete` | src/types/symbols.rs:1-33 | the enumeration is closed: every variant is among the 31 declared |
| `Symbols.FromCodeOfGetSymbol` | src/types/symbols.rs:43-73 | the table-driven inverse decodes the code of every variant back to that variant |
| `Symbols.GetSymbolOfFromCode` | src/types/symbols.rs:43-73 | the inverse only answers a variant whose code is exactly the string given |
| `Symbols.GetSymbolInjective` | src/types/symbols.rs:43-73 | distinct variants have distinct codes |
| `Symbols.ImageSize` | src/types/symbols.rs:43-73 | the code table maps any set of variants onto a set of codes of the same size |
| `Symbols.AllCodesCount` | src/types/symbols.rs:41-75 | the registry hands out exactly 31 distinct codes, all well formed |
| `Snapshot.Into` | src/lib.rs:121-124 | converting into a key succeeds exactly when the key has a rate, and otherwise reports that key as missing |
| `Snapshot.From` | src/lib.rs:139-143 | converting from a key succeeds exactly when both the base and the key have rates; a missing base is reported first, then a missing key |
| `Snapshot.IntoBaseIdentity` | src/lib.rs:121-124 | with the base's rate 1.0, converting into the base returns the amount unchanged |
| `Snapshot.FromSelfIdentity` | src/lib.rs:139-143 | converting the base from itself returns the amount unchanged, whatever the base's (non-zero) rate |
| `Snapshot.FromAfterInto` | src/lib.rs:121-143 | convert_from after convert_into returns the amount scaled by the base's rate, so exactly the amount when that rate is 1 (real arithmetic) |
| `Snapshot.IntoAfterFrom` | src/lib.rs:121-143 | convert_into after convert_from likewise returns the amount scaled by the base's rate (real arithmetic) |
| `Snapshot.DateIrrelevant` | src/lib.rs:6-10 | the `date` field never affects a conversion |
| `Fer.GetSymbol` | src/lib.rs:49-83 | the lib.rs code table agrees with the registry's on every variant |
| `Fer.ConvertInto` | src/lib.rs:121-124 | succeeds exactly when the variant's code has a rate, and otherwise panics on that code |
| `Fer.ConvertFrom` | src/lib.rs:139-143 | succeeds exactly when the base and the variant's code both have rates; a missing base panics first |
| `Fer.WorkedExamples` | src/lib.rs:121-143 | with base USD and 110 yen per dollar, 100 dollars become 11000 yen and 11000 yen become 100 dollars; with base GBP and 1.3 dollars per pound, 1000 pounds become 1300 dollars (all four values exact in f64 too) |
| `Fer.ConvertFromSelf` | src/lib.rs:139-143 | when the variant's code is the base, convert_from returns the amount unchanged |
| `Fer.ConvertRoundTrip` | src/lib.rs:108-143 | with base rate 1, convert_from undoes convert_into for every variant that has a rate (real arithmetic) |
| `Fer.UsdSnapshotExamples` | src/lib.rs:150-155 | for a USD snapshot, one dollar converts into one dollar, and a million dollars, and one dollar, convert back unchanged |
| `FerCurrency.ConvertInto` | src/currency.rs:49-52 | succeeds exactly when the variant's code has a rate, and otherwise panics on that code |
| `FerCurrency.ConvertFrom` | src/currency.rs:67-71 | succeeds exactly when the base and the variant's code both have rates; a missing base panics first |
| `FerCurrency.AgreesWithLib` | src/currency.rs:49-71 | on the same record with all rates positive, both conversions give the same results and panics as the lib.rs draft |
| `FerCurrency.ConvertFromSelf` | src/currency.rs:67-71 | when the variant's code is the base, convert_from returns the amount unchanged |
| `FerCurrency.UsdDocTest` | src/currency.rs:22-23 | for a USD snapshot, one dollar converts back from dollars as 1.0 |
| `FerMain.UpperChar` | src/main.rs:25 | a lowercase ASCII letter becomes the uppercase letter 32 code points below; anything else is unchanged |
| `FerMain.ToUpper` | src/main.rs:25 | uppercasing keeps the length, changes each character as UpperChar does, and leaves no lowercase letter |
| `FerMain.ToUpperFixesUpper` | src/main.rs:25 | a string with no lowercase letter is its own uppercase form |
| `FerMain.ToUpperIdempotent` | src/main.rs:32 | uppercasing twice is uppercasing once, so an already uppercased key hits the same entry |
| `FerMain.ToUpperFixesCode` | src/main.rs:25 | every currency code is unchanged by uppercasing |
| `FerMain.ConvertInto` | src/main.rs:24-28 | succeeds exactly when the uppercased key has a rate, and otherwise panics on the uppercased key |
| `FerMain.ConvertFrom` | src/main.rs:30-35 | succeeds exactly when the base, looked up as stored, and the uppercased key both have rates; a missing base panics first |
| `FerMain.CaseInsensitive` | src/main.rs:24-35 | two keys with the same uppercase form give identical results and panics |
| `FerMain.YenSpellings` | src/main.rs:25 | "jpy", "Jpy" and "JPY" convert identically |
| `FerMain.AgreesWithSymbolKeyed` | src/main.rs:24-35 | any key whose ASCII uppercase form is a variant's code converts exactly as the Symbol-keyed draft does for that variant |
| `FerMain.CodeAsText` | src/main.rs:24-35 | a variant's code, given as text, reaches the same rate entry as the variant itself |
| `FerMain.ConvertFromSelf` | src/main.rs:30-35 | a key whose uppercase form is the base converts back unchanged |
| `FerMain.ConvertRoundTrip` | src/main.rs:24-35 | with base rate 1, convert_from undoes convert_into for every key whose uppercase form has a rate (real arithmetic) |

## Left out

- `Currency::new` in every draft (src/lib.rs:98-106, src/currency.rs:26-34, src/main.rs:13-22): an async HTTP GET, JSON decoding and URL building. These are network I/O and foreign libraries. A snapshot here is any record value.
- `main` in src/main.rs, src/bin/main.rs and examples/basic_usage.rs: callers that only print.
- `new_from_str`, `convert_into_from_str`, `match_symbol`, `list_symbols`, and the text-to-symbol parse that falls back to EUR on unknown input: src/bin/main.rs:7-8 calls `new_from_str` and `convert_into_from_str`, and examples/basic_usage.rs:1 imports `list_symbols` and `match_symbol`, but no modelled file defines any of them. `Symbols.FromCode` is an exact inverse that answers `None` on unknown text. It has no case folding and no fallback.
- IEEE-754 rounding, infinities and NaN: amounts and rates are `real`. The round-trip lemmas are exact only in real arithmetic.
- Snapshot.From: requires every rate of the snapshot to be positive. In the source, a zero rate divides to infinity or NaN rather than panicking, and that case is not modelled. The same holds for Fer.ConvertFrom, FerCurrency.ConvertFrom and FerMain.ConvertFrom.
- FerMain.ToUpper: ASCII uppercasing only. Rust's `to_uppercase` follows Unicode: it can change the length of non-ASCII text, and it maps some non-ASCII letters onto ASCII ones ('ı' U+0131 to 'I', 'ſ' U+017F to 'S'). So in the source "ıls", "ſek" or "uſd" reach the ILS, SEK or USD rate. The model leaves those characters alone and reports the rate as missing. FerMain.ConvertInto, FerMain.ConvertFrom, FerMain.CaseInsensitive and FerMain.AgreesWithSymbolKeyed therefore match the source only for keys made of ASCII characters.
- The `Deserialize`, `Debug`, `Copy` and `Clone` derives.
