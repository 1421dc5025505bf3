# Sum to n, and the token catalogue of the currency-swap form

A Dafny model of two small pieces of the repository.

- `sum.dfy` (module `Sum`) models the four "sum of 1..n" solutions of
  `src/problem1/sum.js`: the accumulating loop, the closed form
  `n * (n + 1) / 2`, the recursion with base case `n === 1`, and
  `Array.from` followed by `reduce`. All four are compared with one
  specification, `SumTo(n)` = 1 + 2 + ... + n, which is 0 for `n <= 0`.
  The domains on which they agree differ:
  - the loop and the reduce equal `SumTo(n)` for every integer `n`;
  - the closed form equals it for `n >= 0`; for `n < 0` it returns the sum
    of 1..(-n-1), which differs from `SumTo(n)` = 0 from `n = -2` down;
  - the recursion is defined only for `n >= 1`, where it reaches its base
    case, and equals `SumTo(n)` there.

  The loop is a `method` with loop invariants. The other three are
  functions, because the source writes them as expressions.
- `token_catalog.dfy` (module `TokenCatalog`) models the price-feed
  entries and the tokens of the swap form. It holds the icon URL of a
  symbol, lookup by symbol (`find`), and the duplicate-dropping `reduce`
  of the load callback. The `reduce` is a method with a loop, proved
  against the fold `Normalize`. Lemmas prove that `Normalize` keeps exactly
  the first occurrence of each currency, in feed order.
- `fancy_form.dfy` (module `FancyForm`) models the component state as
  the class `SwapForm`: `tokens`, `error`, `loading`, `conversionResult`
  and the form's `amount`, `from` and `to`. It also models the two
  outcomes of the feed request, `handleSwap` and `handleSwitchTokens`.
  The decisions these handlers take are pure functions (`Swap`,
  `Switched`), and lemmas state what those functions mean.

Notable behaviours of the code:

- The swap handler does not reject `from === to`. Such a swap is computed
  like any other (`SwapSameToken`).
- Apart from the form's `required` rules, the handler checks nothing but
  the two `find` calls. It has no overflow or zero-price case.
- A successful swap does not clear an earlier error.
- `loading` is set and then cleared within the same handler, so it is
  always false once the handler returns.

These behaviours follow from the JavaScript and antd semantics:

- `handleSwap` is the form's `onFinish`, which antd calls only once the
  `required` rules on `amount` and `to` pass. `HandleSwap` therefore
  requires `Validates` of the form's values; `from` has no rule and may
  still be unset.
- `handleSwitchTokens` only takes effect once `form.validateFields()`
  accepts the form. `amount` and `to` carry a `required` rule and `from`
  carries none. So switching twice restores the fields only when `from`
  was filled in as well (`SwitchTwice`).
- `Array.from({ length: n })` converts the length with ECMAScript's
  ToLength, which turns a negative length into 0. So `sum_to_n_d` returns
  0 for every `n <= 0`.

## Model

| member | source | states |
|---|---|---|
| `Sum.SumLoop` | src/problem1/sum.js:2-8 | the loop returns 1 + ... + n; for n <= 0 the body never runs and it returns 0 |
| `Sum.SumToClosedForm` | src/problem1/sum.js:16-18 | twice the sum of 1..n is n * (n + 1) for every n >= 0 |
| `Sum.ConsecutiveProductEven` | src/problem1/sum.js:17 | n * (n + 1) is even for every integer n, negative ones included |
| `Sum.SumFormula` | src/problem1/sum.js:16-18 | the closed form's division by 2 is exact: twice the result is n * (n + 1) |
| `Sum.SumFormulaAgrees` | src/problem1/sum.js:16-18 | for n >= 0 the closed form equals the sum of 1..n, hence the loop's result |
| `Sum.SumFormulaNegative` | src/problem1/sum.js:16-18 | for n < 0 the closed form returns the sum of 1..(-n-1), which is 0 only at n = -1, so it differs from the loop from n = -2 down |
| `Sum.SumToStrictlyIncreasing` | src/problem1/sum.js:4-6 | for 0 <= m < n the sum of 1..n exceeds the sum of 1..m by at least n, so it strictly increases |
| `Sum.SumRecursive` | src/problem1/sum.js:26-29 | for n >= 1, where the recursion reaches its base case 1, it returns the sum of 1..n |
| `Sum.Reduce` | src/problem1/sum.js:39 | `reduce((a, b) => a + b, acc)` as a left fold of + from the seed; its meaning on [1..n] is `ReduceRange` |
| `Sum.ReduceSnoc` | src/problem1/sum.js:39 | reducing with + over a sequence extended by x gives x more |
| `Sum.ReduceRange` | src/problem1/sum.js:39 | reducing `Array.from({ length: n }, (_, i) => i + 1)`, which is [1, ..., n], with + from the seed 0 gives the sum of 1..n |
| `Sum.SumReduce` | src/problem1/sum.js:38-40 | the range-and-reduce solution returns the sum of 1..n for every n, and the seed 0 for n <= 0 |
| `Sum.LoggedValues` | src/problem1/sum.js:50-53 | all four solutions return 15 for n = 5 |
| `TokenCatalog.ImageUrl` | src/problem2/fancy-form/src/page/Fancy-form/fancyForm.jsx:26 | the icon URL template: the fixed prefix, the symbol, ".svg"; what it means for the symbol is stated by `SymbolOfImageUrl` and `ImageUrlRoundTrip` |
| `TokenCatalog.SymbolOfImageUrl` | src/problem2/fancy-form/src/page/Fancy-form/fancyForm.jsx:26 | a symbol read back from an icon URL rebuilds that URL |
| `TokenCatalog.ImageUrlRoundTrip` | src/problem2/fancy-form/src/page/Fancy-form/fancyForm.jsx:26 | the icon URL (fixed prefix, symbol, ".svg") gives back its symbol, so it depends on the symbol alone and no two symbols share one |
| `TokenCatalog.MakeToken` | src/problem2/fancy-form/src/page/Fancy-form/fancyForm.jsx:23-27 | a kept entry becomes a token with the entry's currency as symbol, its price, and the icon URL of that symbol |
| `TokenCatalog.Find` | src/problem2/fancy-form/src/page/Fancy-form/fancyForm.jsx:22 | `find` returns nothing exactly when no token has the symbol; otherwise it returns the first token with that symbol |
| `TokenCatalog.FindIffSymbol` | src/problem2/fancy-form/src/page/Fancy-form/fancyForm.jsx:22 | `find` succeeds exactly for the symbols of the list |
| `TokenCatalog.Normalize` | src/problem2/fancy-form/src/page/Fancy-form/fancyForm.jsx:20-32 | the fold the reduce computes; its result has no two tokens with the same symbol and is no longer than the feed |
| `TokenCatalog.NormalizeSymbols` | src/problem2/fancy-form/src/page/Fancy-form/fancyForm.jsx:20-32 | every currency of the feed is a symbol of the catalogue, and every symbol came from the feed |
| `TokenCatalog.NormalizeOrigins` | src/problem2/fancy-form/src/page/Fancy-form/fancyForm.jsx:20-32 | each token is the token of a feed entry that is the first with its currency, and the tokens keep the order of those entries in the feed |
| `TokenCatalog.NormalizeComplete` | src/problem2/fancy-form/src/page/Fancy-form/fancyForm.jsx:21-28 | every first occurrence of a currency in the feed gives a token |
| `TokenCatalog.NormalizeFirstWins` | src/problem2/fancy-form/src/page/Fancy-form/fancyForm.jsx:21-29 | looking up a currency finds the token of its first feed entry, with that entry's price; later duplicates are dropped |
| `TokenCatalog.NormalizeFeed` | src/problem2/fancy-form/src/page/Fancy-form/fancyForm.jsx:20-32 | the in-place `push` loop, with `find` as its guard, builds exactly the fold `Normalize(feed)`, whose properties the lemmas above state |
| `TokenCatalog.DuplicateFeedExample` | src/problem2/fancy-form/src/page/Fancy-form/fancyForm.jsx:20-32 | a feed with BTC at 50000 and then at 51000 gives one BTC token at 50000 |
| `FancyForm.LookUp` | src/problem2/fancy-form/src/page/Fancy-form/fancyForm.jsx:46-47 | looking up a form selection finds a token exactly when the selection is made and is a symbol of the catalogue, and then it is what `find` returns: the catalogue's first token with that symbol |
| `FancyForm.LookUpOnlyMatch` | src/problem2/fancy-form/src/page/Fancy-form/fancyForm.jsx:46-47 | in a catalogue without duplicate symbols, the token a selection finds is the only token with that symbol |
| `FancyForm.Swap` | src/problem2/fancy-form/src/page/Fancy-form/fancyForm.jsx:46-57 | a swap converts exactly when both selections are symbols of the catalogue; the result then carries the form's amount, from and to, and a quote of the amount at the prices of the tokens `find` returns |
| `FancyForm.SwapSameToken` | src/problem2/fancy-form/src/page/Fancy-form/fancyForm.jsx:46-57 | from equal to to is not rejected: the swap converts at the token's own price on both sides |
| `FancyForm.SwapUsesFirstPrices` | src/problem2/fancy-form/src/page/Fancy-form/fancyForm.jsx:20-57 | on a catalogue built from a feed, the quote uses the prices of the first feed entries of the two currencies |
| `FancyForm.Required` | src/problem2/fancy-form/src/page/Fancy-form/fancyForm.jsx:105 | antd's `required` rule: the field is set and not the empty string |
| `FancyForm.Validates` | src/problem2/fancy-form/src/page/Fancy-form/fancyForm.jsx:102-149 | `form.validateFields()` succeeds exactly when amount and to pass `required` (lines 105 and 149); from has no rule |
| `FancyForm.Switched` | src/problem2/fancy-form/src/page/Fancy-form/fancyForm.jsx:69-75 | amount is unchanged and {from, to} keeps its two values; they are exchanged when validation passes and nothing changes when it fails |
| `FancyForm.SwitchTwice` | src/problem2/fancy-form/src/page/Fancy-form/fancyForm.jsx:69-75 | switching twice restores the fields if and only if the first switch was refused or from was filled in too |
| `FancyForm.SwapForm.constructor` | src/problem2/fancy-form/src/page/Fancy-form/fancyForm.jsx:9-13 | mount state: empty catalogue, empty error, not loading, no result, empty amount, no selection |
| `FancyForm.SwapForm.Enter` | src/problem2/fancy-form/src/page/Fancy-form/fancyForm.jsx:91-99 | user input replaces the form's fields and nothing else |
| `FancyForm.SwapForm.LoadSucceeded` | src/problem2/fancy-form/src/page/Fancy-form/fancyForm.jsx:19-34 | a successful load replaces the empty catalogue by the normalised feed and changes nothing else |
| `FancyForm.SwapForm.LoadFailed` | src/problem2/fancy-form/src/page/Fancy-form/fancyForm.jsx:35-37 | a failed load sets "Failed to load tokens." and leaves the catalogue empty |
| `FancyForm.SwapForm.HandleSwap` | src/problem2/fancy-form/src/page/Fancy-form/fancyForm.jsx:41-66 | called only after amount and to pass validation; both tokens found: a new result and the error unchanged; otherwise "Invalid token data." and the result unchanged; loading false at the end; catalogue and fields untouched; the invariant that a shown result names catalogue tokens is kept |
| `FancyForm.SwapForm.HandleSwitchTokens` | src/problem2/fancy-form/src/page/Fancy-form/fancyForm.jsx:69-75 | amount is never changed; from and to are exchanged when validation (amount and to filled in) passes and left as they were when it fails; nothing else changes |

## Left out

- The `axios.get` request, the promise chain, the `useEffect` lifecycle and the asynchrony of `form.validateFields()`. Only their outcomes are modelled, as state transitions. The mount effect runs once, so its two outcomes require that the request has not settled yet.
- A feed response that is not an array, or an entry that cannot be destructured, makes the reduce throw, which lands in the same `catch`. The model has no malformed-entry case: every feed entry has a currency and a price, and any failure is `LoadFailed`.
- FancyForm.SwapForm.HandleSwap: the floating-point conversion `amount * price / price` and `toFixed(4)` are the parameter `quote`. Prices are reals that are only carried along.
- FancyForm.SwapForm.HandleSwap: React batches the state updates of one handler. The model applies them in order, so the `loading = true` that is visible only during the handler is not observable. The `console.log` of the stale result is left out.
- The rendering (lines 78-229): widgets, icons and the result view. The number-only input of `amount` is a widget property and is not modelled. `amount` is the field's string value.
- `src/problem2/fancy-form/src/App.jsx` is layout only and is not part of this model.
- The `console.log` calls of `sum.js`. Their values are the test vector in `LoggedValues`.
- Sum.SumLoop, Sum.SumFormula, Sum.SumRecursive, Sum.SumReduce: `n` and the sums are unbounded integers, not IEEE doubles. The model leaves out non-integer `n` and results beyond 2^53.
- Sum.SumRecursive: the source's recursion is n frames deep. For `n < 1` it never ends, and for large positive `n` it also exceeds the engine's call-stack limit; both end in a RangeError (stack overflow). The model requires `n >= 1`, has no stack bound, and does not model that failure.
