# Crypto gains report: a Dafny model of its aggregation

The program fetches a Coinbase user's transactions and the current USD spot
prices and prints, per currency, what is held, what it cost, what it is
worth and the profit, followed by a totals row. This project models the
part of `main.go` that computes those numbers:

- the fold of `calcGains` over the transactions: transactions created
  before the cutoff `since` are skipped (the cutoff itself is inside the
  window); `send`, `buy` and `sell` add their amount to the currency's net
  holding; a `buy` adds the amount of its total to the cost basis and a
  `sell` subtracts the amount of its total (the total's currency field is
  never read: the model, like the code, takes it to be USD); any other type stops the computation (the Go
  program panics; here `Accumulate` returns `Err(Unhandled(type))` for the
  first such transaction);
- the join with the spot rates: the rates are walked in the order given and
  one `Gain` record is emitted for each currency whose net holding is
  nonzero (a missing map entry reads as 0, as in Go), valued at the spot
  price; nothing is sorted;
- `Profit` and `ProfitPercent` of a record, and the totals of `main`: the
  summed cost basis and value, and the profit and percentage computed from
  those sums;
- the helpers `sign`, `maxInt` and the separator row of `printSep`.

Modules: `Wrappers` (Option, Result), `Ledger` (transactions and the
per-currency sums that specify the fold), `Gains` (the fold and the join,
and the gains report they produce), `Report` (totals, sign, separator).

Amounts are exact `real`s and timestamps are `int`s, with `Before` read as
`<`. A percentage is `Option<real>`: `None` stands for the non-finite float
Go produces when the cost basis is 0.

The output follows spot-rate order because the code at main.go:148-159
appends in that order and never sorts. Descriptions of later versions of the
tool sort the rows by currency code; this file does not, and the model
follows the code.

## Model

| member | source | states |
|---|---|---|
| `Ledger.Window` | main.go:128-131 | no longer than the input; a transaction is in it exactly when it is in the input and `createdAt >= since` |
| `Ledger.WindowCount` | main.go:128-131 | every in-window transaction is kept as many times as the input has it, every other one zero times |
| `Ledger.WindowAppend` | main.go:128-131 | the window of two lists is the window of the first followed by that of the second, so input order is kept |
| `Ledger.TallyAppend` | main.go:128-140 | the per-currency sums are additive over concatenating transaction lists |
| `Ledger.TallyPermutation` | main.go:128-140 | any reordering of the transactions gives the same net amount and cost basis for every currency |
| `Ledger.OneTransaction` | main.go:129-140 | a transaction before the cutoff changes nothing; an in-window one adds its amount to its currency's holding and its buy total (buy), minus its sell total (sell) or nothing (send) to its cost basis; other currencies are unaffected |
| `Ledger.TallyWindow` | main.go:129-131 | summing all transactions equals summing only the in-window ones |
| `Ledger.Untouched` | main.go:125-126 | a currency with no in-window transaction has holding and cost basis 0; one with no in-window buy or sell has cost basis 0 |
| `Ledger.FirstOffenseFound` | main.go:132-143 | the computation fails exactly when some in-window transaction has a type other than send, buy or sell, and it reports the first such type |
| `Ledger.EarlyNeverFails` | main.go:129-142 | a transaction before the cutoff never causes the failure, whatever its type |
| `Ledger.OffensePermutation` | main.go:128-143 | whether the computation fails does not depend on the order of the transactions |
| `Gains.Gain.Profit` | main.go:103-105 | the definition `nativeValue - costBasis`, with no contract of its own; its properties are stated by `Report.TotalProfitIsSumOfProfits` and `Gains.BuyThenSell` |
| `Gains.Gain.ProfitPercent` | main.go:107-109 | none exactly when the record's cost basis is 0; otherwise the value times the cost basis is `nativeValue - costBasis` |
| `Gains.PercentOf` | main.go:107-109 | the percentage exists exactly when the cost basis is nonzero, and then multiplied by the cost basis gives the profit |
| `Gains.Accumulate` | main.go:125-144 | on an unknown in-window type the result is that failure; otherwise both maps read, for every currency, the window's net amount and cost basis, and their keys are exactly the currencies with an in-window transaction (amount) or in-window buy or sell (cost basis) |
| `Gains.CalcGains` | main.go:125-161 | fails exactly as the fold does; otherwise returns the gains report built from the per-currency sums and the spot rates |
| `Gains.HoldingsAppend` | main.go:148-159 | the report for two lists of spot rates is the report for the first followed by that for the second: output is in spot-rate order |
| `Gains.HoldingsSound` | main.go:148-158 | at most one record per spot rate; each record is that of a spot rate whose currency has nonzero holding, with that holding, the window's cost basis and holding times spot price |
| `Gains.HoldingsComplete` | main.go:148-158 | every spot rate whose currency has a nonzero holding produces its record |
| `Gains.HoldingsOrdered` | main.go:147-161 | records of earlier spot rates come before records of later ones |
| `Gains.NoTransactionsNoRecord` | main.go:149-152 | a currency with no in-window transaction has no record even if it has a spot rate |
| `Gains.HoldingsPermutation` | main.go:128-159 | reordering the transactions leaves the report unchanged |
| `Gains.OrderIndependent` | main.go:128-161 | reordering the transactions changes neither failure nor the report |
| `Gains.BuyThenSell` | main.go:133-158 | buy 1 BTC for $100, sell 0.5 for $60, spot $120: record holding 0.5, cost 40, value 60, profit 20, percentage 50% |
| `Report.Abs` | main.go:59-60 | the absolute value is nonnegative and equals the value or its negation |
| `Report.SignedMagnitude` | main.go:77-82 | the sign is "-" exactly for negative values, and sign with absolute value gives back the value |
| `Report.MaxInt` | main.go:320-325 | the result is at least both arguments and is one of them |
| `Report.Repeat` | main.go:334-334 | the string has the requested length and consists only of the given character |
| `Report.Separator` | main.go:331-337 | one cell per header, each made only of dashes and of length max(header length, 8) |
| `Report.Sums.Profit` | main.go:63-63 | the definition `nativeValue - costBasis` on the totals, with no contract of its own; `Report.TotalProfitIsSumOfProfits` states it equals the sum of the records' profits |
| `Report.Sums.ProfitPercent` | main.go:64-64 | computed from the totals: none exactly when the total cost basis is 0; otherwise the value times the total cost basis is the total profit |
| `Report.Totals` | main.go:48-53 | the totals are the sums of the records' cost bases and USD values |
| `Report.TotalProfitIsSumOfProfits` | main.go:48-63 | the profit taken from the totals equals the sum of the records' profits |
| `Report.PercentFromTotals` | main.go:63-64 | rows at +50% (cost 100) and -10% (cost 200) give a total of +10%, from the totals, not their average of +20% |

## Left out

- The exchange client: request construction, HMAC-SHA256 signing, status handling and JSON decoding (main.go:207-318 and all of coinbase/coinbase.go). The account list (main.go:116-121) has no counterpart: the per-account transaction lists that `GetAllTransactions` concatenates (main.go:267-277) become the single `txs` parameter of `CalcGains`, and the fetched spot rates its `spot` parameter. Retrieval failures and `must`/`log.Fatal` are not modelled.
- Flag parsing and the `time.Now()`-based default cutoff (main.go:28-38): the cutoff is a parameter.
- `strconv.ParseFloat` inside `Amount()` (main.go:180-186, 301-307) and its panic: amounts are given as exact reals.
- IEEE float64 behaviour: rounding is not modelled; the +Inf, -Inf or NaN percentage for a zero cost basis is `None`; `sign` of NaN does not arise.
- Output formatting: `fmtPCT`, `fmtUSD`, `fmtVal`, `printLine`, the tabwriter alignment, `js` and printing to standard output.
- Fields the core never reads: a transaction's native amount, the fee, amount and subtotal of its buy and sell records, the currency of their totals (taken as USD), and a spot rate's quote currency (always USD).
- Report.Separator: Go's `len` counts UTF-8 bytes, the model counts characters; they agree on the ASCII headers of `main`.
- Gains are returned as pointers in Go; they are never changed after creation, so the model uses values.
