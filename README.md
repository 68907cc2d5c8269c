# Bithumb autotrade: balance filter and order decision

A model of the two pieces of logic in the bithumb auto-trading script
`autotrade.py`. Once per cycle the script asks a language model whether to
buy, sell or hold bitcoin on the KRW-BTC market and then places at most one
market order on the Bithumb exchange.

- `Balances` models the list comprehension that keeps only the `BTC` and
  `KRW` records of the account balances before they are shown to the advisor.
- `Trading` models what happens after the advisor's JSON answer is parsed.
  `RunCycle` reads the `"decision"` and `"reason"` keys and fails as Python
  would when a key is missing or the decision is not a string. `Decide` maps
  the decision string, the won balance, the bitcoin balance and the current
  price to an order intent (`NoOp`, `Buy(amount)`, `Sell(amount)`) and to
  an `Outcome`. The script prints one of three messages after the decision
  and reason lines: order executed (`Executed`), order failed for lack of
  funds (`SkippedInsufficient`) or hold (`Hold`). `Unrecognised` stands for
  an unknown decision, for which it prints nothing more.
- `Wrappers` holds the `Result` type for the cycle's error path.

Balances and the price are `real`s. The exchange calls (balances, current
price, market orders) and the console output are inputs and return values.

The script compares the decision case-sensitively with `"buy"`, `"sell"`
and `"hold"`. It commits the whole balance times 0.997 on both sides. It
has no percentage sizing, no correction of a hold answer and no error for an
unknown decision: any other string places nothing and prints nothing beyond
the two header lines.

## Model

| member | source | states |
|---|---|---|
| `Balances.FilterBalances` | autotrade.py:43 | The result is no longer than the input, holds only `BTC`/`KRW` records, and a record is in it exactly when it is in the input and tracked |
| `Balances.FilterIsSubsequence` | autotrade.py:43 | The kept records appear in their original order (the result is a subsequence of the input) |
| `Balances.FilterCount` | autotrade.py:43 | Each tracked record occurs as often in the result as in the input; untracked records do not occur: nothing is added or dropped |
| `Balances.FilterAppend` | autotrade.py:43 | Filtering a concatenation is the concatenation of the filtered parts (the comprehension looks at each record on its own) |
| `Balances.FilterKeepsTracked` | autotrade.py:43 | A list of only `BTC`/`KRW` records is returned unchanged |
| `Balances.FilterIdempotent` | autotrade.py:43 | Filtering the filtered balances changes nothing |
| `Balances.FilterDropsUntracked` | autotrade.py:43 | A list with no `BTC`/`KRW` record filters to the empty list |
| `Balances.TrackedSubsequenceOfFilter` | autotrade.py:43 | Any in-order selection of tracked input records is an in-order selection of the result |
| `Balances.FilterUnique` | autotrade.py:43 | The result is the only in-order selection of tracked records of its length, so order, membership and multiplicity determine it |
| `Trading.OrderSize` | autotrade.py:105 | The 0.997 order size: for a positive balance it is positive and strictly below the balance, zero for a zero balance, and it leaves 0.3% of the balance unspent |
| `Trading.Decide` | autotrade.py:102-116 | Buy iff the decision is exactly `"buy"` and won > 5000, of `OrderSize(krw)`; sell iff exactly `"sell"` and btc*price > 5000, of `OrderSize(btc)`; `Executed` iff an order is placed; skipped iff the chosen side fails its strict guard; `Hold` iff `"hold"`; `Unrecognised` iff any other string |
| `Trading.RunCycle` | autotrade.py:94-116 | Missing `"decision"` fails with a key error; a non-string decision fails when `.upper()` is called; missing `"reason"` fails with a key error; all three fail before any order; otherwise the result is `Decide` on the decision string |
| `Trading.HoldNeverOrders` | autotrade.py:115-116 | `"hold"` never yields an order, with any balances |
| `Trading.BuyExactly` | autotrade.py:102-107 | A buy of `krw*0.997` is produced iff the decision is `"buy"` and `krw > 5000`; exactly 5000 won is skipped as insufficient |
| `Trading.BuyWithinBalance` | autotrade.py:103-105 | A placed buy spends a positive amount strictly less than the won balance |
| `Trading.SellExactly` | autotrade.py:108-114 | A sell of `btc*0.997` is produced iff the decision is `"sell"` and `btc*price > 5000` |
| `Trading.SellWithinBalance` | autotrade.py:110-112 | With a non-negative bitcoin balance, a placed sell is positive and strictly less than that balance |
| `Trading.OtherDecisionsPlaceNothing` | autotrade.py:99-116 | Every string other than the three exact lower-case ones, `"BUY"` included, places nothing and prints no further message (`Unrecognised`); `.upper()` only affects the printed header line |
| `Trading.AtMostOneOrder` | autotrade.py:102-116 | Buy only on `"buy"`, sell only on `"sell"`: the branches exclude each other and a cycle places at most one order |
| `Trading.InputsEachPathReads` | autotrade.py:102-114 | The price (fetched only on the sell path) and the bitcoin balance matter only to a sell; the won balance only to a buy |
| `Trading.ReasonDoesNotMatter` | autotrade.py:99-116 | The reason's value and any keys other than `"decision"` do not change the outcome |
| `Trading.WellFormedAnswer` | autotrade.py:94-102 | An answer holding a string decision and a reason yields `Decide` of that decision |
| `Trading.Scenarios` | autotrade.py:102-114 | Worked cases: 10000 won buys 9970 won; 4000 won is skipped; 0.01 BTC at 100,000,000 won sells 0.00997 BTC; 0.00004 BTC (4000 won) is skipped |

## Left out

- `add_indicators` (autotrade.py:13-33): indicator columns computed by the `ta` library on a pandas DataFrame, in floating point.
- All Bithumb calls (autotrade.py:39-57, 96-97, 105, 109, 112): balances, order book, candles, current price and the two market orders are inputs or the returned intent. Their own failures are not modelled.
- The language-model request and its prompt (autotrade.py:60-91), and `json.loads` (autotrade.py:94): the model starts from the parsed JSON object. An answer that is valid JSON but not an object is not modelled.
- The printed lines (autotrade.py:99-100, 104, 107, 111, 114, 116): only which of the three branch messages is printed, or that none is, is kept, as `Outcome`. The upper-casing of the decision for display and the reason text are not modelled.
- The `while True` loop with `time.sleep(10)` (autotrade.py:118-121) and the loading of credentials from the environment.
- `Trading.Decide`: balances and prices are exact reals, so IEEE double rounding of `krw*0.997` and `btc*price` is not modelled.
- `Balances.FilterBalances`: each record is assumed to have a `currency` string; the key error for a record without one is not modelled. Other fields are kept as an opaque map.
- `mvp.py`: a one-shot script that fetches candles and prints one model reply, all I/O.
