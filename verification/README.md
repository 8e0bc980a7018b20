# Theater invoice billing, modelled in Dafny

This project models how a theater company bills a customer. Each performance on an invoice gets:

- an amount in cents, based on the play's genre ("tragedy" or "comedy") and the audience size;
- a loyalty score, the "volume credits", based on the same two inputs.

The statement then adds up both figures over the invoice. Any other genre makes the whole statement fail with `unknown type: <type>`.

The repository holds the same computation at five stages of a refactoring, and each stage is modelled in its own form:

- `index05.dfy` models `index05/createStatementData.js`, the final form. One calculator per genre is chosen by a factory. The performances are enriched by a `map`, and the totals are `reduce` folds. The calculators become a two-variant datatype (`TragedyCalculator`, `ComedyCalculator`) whose member functions are the getters. Enrichment builds a new record, so the input is never changed.
- `index03.dfy` models `index03.js`. The statement data is built from a switch-based `amountFor`, an if-based `volumeCreditsFor` and `reduce` totals. It is modelled as functions and proved equal to the final stage, error included.
- `index02.dfy`, `index01.dfy` and `index00.dfy` model the imperative stages. Each `amountFor` is a method that updates a local result inside a `match` on the type string. Each `statement` is a method whose loop accumulates the totals. The loop invariants say that after k iterations the running totals are the sums over the first k enriched performances. Every such method is proved to return exactly the totals of the final stage's statement data, or the same error.
- `theater.dfy` holds the shared records and the `Result`/`Error` types.
- `folds.dfy` holds `reduce` (`Folds.Reduce`, a left fold with a running total) and the plain sum (`Folds.Sum`). A lemma shows the two agree.

`index02.js` declares `statement` twice. The two bodies are modelled as `Index02.StatementSingleLoop` (lines 18-67) and `Index02.StatementSplitLoops` (lines 312-384). Both are proved to give the same totals. The first body's nested `playFor`/`amountFor` (index02.js:41-65) are textually the same as the second's (index02.js:358-383), so one `Index02.AmountFor` serves both. In module code two top-level declarations of the same function name are an early error, so the file cannot load as written. The equivalence is therefore stated between the two bodies taken as separate functions.

A 35-seat comedy costs 30000 + 10000 + 500·15 + 300·35 = 58000 cents. The three-play sample invoice (Hamlet with 55 seats, As You Like It with 35, Othello with 40) totals 173000 cents and 47 credits, as `Index05.SampleStatement` proves.

`Theater.PlayFor` is the plain catalog lookup `plays[perf.playID]` that every stage uses. It is a lookup with no contract of its own. What it returns is pinned down by the `play` field in `Index05.EnrichPerformance`'s contract.

## Model

| member | source | states |
|---|---|---|
| `Index05.Calculator.BaseVolumeCredits` | index05/createStatementData.js:137-139 | The base rule is max(audience − 30, 0). It is never negative, at least audience − 30, and equal to one of the two. |
| `Index05.Calculator.Amount` | index05/createStatementData.js:142-160 | Tragedy: 40000 up to 30 seats, else 10000 + 1000·audience, which is 40000 + 1000·(audience − 30). Comedy: 30000 + 300·audience up to 20 seats, else 30000 + 800·audience, which is the 10000 + 500·(audience − 20) surcharge plus 300 a seat. Never below 30000. |
| `Index05.Calculator.VolumeCredits` | index05/createStatementData.js:161-163 | A tragedy gets exactly the base credits. A comedy's excess over the base, b, satisfies 5b ≤ audience < 5b + 5, so b = floor(audience/5). Never below the base. |
| `Index05.CreatePerformanceCalculator` | index05/createStatementData.js:118-125 | Returns the tragedy calculator exactly when the type is "tragedy" and the comedy calculator exactly when it is "comedy". For any other type it fails with `UnknownType(type)`. Each direction is proved. |
| `Index05.EnrichPerformance` | index05/createStatementData.js:93-103 | Succeeds exactly when the play's type is known. The new record keeps `playID` and `audience`, adds `play = plays[playID]`, and adds the calculator's amount and credits. Otherwise it fails with `UnknownType` of that play's type. |
| `Index05.EnrichAll` | index05/createStatementData.js:87 | The `map` succeeds exactly when every performance enriches. The result has the same length, and element i is the enrichment of input i. On failure, the error is that of the first failing performance. |
| `Index05.TotalAmount` | index05/createStatementData.js:109-111 | The `reduce` over the amounts equals their sum. |
| `Index05.TotalVolumeCredits` | index05/createStatementData.js:113-115 | The `reduce` over the credits equals their sum. |
| `Index05.CreateStatementData` | index05/createStatementData.js:83-91 | Succeeds exactly when every play type is known. On success the customer is copied and the performances are the order- and length-preserving enrichment of the input, each keeping its raw fields. The totals are the sums of the per-performance amounts and credits. Otherwise the call fails with the first error and gives no partial result. An empty invoice gives totals of 0 and 0. |
| `Index05.FirstFailure` | index05/createStatementData.js:87 | If performances 0..i−1 enrich and performance i does not, the whole `map` fails with performance i's error. |
| `Index05.SampleStatement` | index05/createStatementData.js:86-89 | For Hamlet (tragedy, 55), As You Like It (comedy, 35) and Othello (tragedy, 40), the totals are 173000 cents and 47 credits. |
| `Folds.ReduceIsSum` | index05/createStatementData.js:109-115 | The left fold `reduce((total, x) => total + f(x), t)` equals t plus the sum of f over the sequence. With t = 0 it is exactly the sum. |
| `Index03.AmountFor` | index03.js:315-335 | For every performance and play, gives the same result as the final stage's factory plus `amount` getter. It fails, with `UnknownType(type)`, exactly for types other than "tragedy" and "comedy". |
| `Index03.VolumeCreditsFor` | index03.js:338-344 | For the two known types, equals the final stage's calculator credits. For any type other than "comedy" it is max(audience − 30, 0). |
| `Index03.EnrichPerformance` | index03.js:301-307 | The copied-and-extended record, or the error, is identical to the final stage's `enrichPerformance`. |
| `Index03.EnrichAll` | index03.js:293 | The `map(enrichPerformance)` is identical to the final stage's, in order, length and first error. |
| `Index03.TotalAmount` | index03.js:354-356 | The `reduce` over the amounts equals their sum, starting from 0. |
| `Index03.TotalVolumeCredits` | index03.js:366-368 | The `reduce` over the credits equals their sum, starting from 0. |
| `Index03.Statement` | index03.js:289-298 | The statement data handed to the renderer equals `createStatementData` of the final stage, error included. |
| `Index02.AmountFor` | index02.js:363-383 | The switch gives the final stage's calculator amount, or fails with its `UnknownType` error. |
| `Index02.VolumeCreditsFor` | index02.js:349-355 | Never fails. Equals the later `volumeCreditsFor` (index03.js), and so equals the calculator credits for known types. |
| `Index02.CreditsSumIsTotal` | index02.js:331-337 | When every type is known, the sum of `volumeCreditsFor` over the invoice is the statement data's total credits. |
| `Index02.StatementSingleLoop` | index02.js:18-39 | The single accumulating loop ends with the final stage's total amount and total credits, or fails with its error. |
| `Index02.TotalAmount` | index02.js:322-328 | The split-out loop returns the statement's total amount, 0 for no performances, or the first `UnknownType` error. |
| `Index02.TotalVolumeCredits` | index02.js:331-337 | The split-out loop never fails and returns the sum of `volumeCreditsFor` over all performances (0 for none). When all types are known, this is the statement's total credits. |
| `Index02.StatementSplitLoops` | index02.js:312-319 | The split-loop `statement` ends with the final stage's totals, or fails with its error. |
| `Index02.SplitLoopPreservesTotals` | index02.js:416-422 | Split Loop plus Extract Function preserved behaviour: both `statement` bodies give the same totals, or the same error, on every invoice. |
| `Index01.AmountFor` | index01.js:257-277 | The switch on `playFor(aPerformance).type` gives the final stage's calculator amount, or fails with `UnknownType(type)`. |
| `Index01.Statement` | index01.js:226-248 | Loop invariant: after k iterations the credits and amount are the sums over the first k enriched performances. The loop ends with the final stage's totals, or fails with its error. |
| `Index00.AmountFor` | index00.js:54-74 | `amountFor(perf, play)` gives the final stage's calculator amount, or fails with `UnknownType(type)`. |
| `Index00.Statement` | index00.js:20-44 | Loop invariant: after k iterations `totalAmount` and `volumeCredits` are the sums over the first k enriched performances. The loop ends with the final stage's totals, or fails with its error. |

## Left out

- Currency formatting (`Intl.NumberFormat`, `format`, `usd` and the division by 100) is a library call producing floating-point text. The model keeps amounts as integer cents.
- Building the statement text is left out: every `statement` body's string concatenation and `renderPlainText` (index03.js:371-388). It is pure formatting over the computed values. The models of `statement` return the statement data or the two totals that the text is built from.
- Loading `invoices.json` and `plays.json` and the `console.log` entry points are program I/O. The invoice and the catalog are parameters. In index01.js the catalog is a module-level import, and here it is an extra parameter.
- `index04.js` only imports and prints from `index04/statement.js`. That file is not part of this model.
- Commented-out regions duplicate the live code and are not modelled.
- A play id missing from the catalog crashes the source with a type error rather than raising an error of its own. The model requires every play id to be in the catalog instead of modelling the crash. That requirement also excludes invoices where a performance of an unknown type comes before a missing id. On those the source stops at the first throw and reports the clean `unknown type` error (index05/createStatementData.js:87, 118-123), and the model says nothing about them.
- The abstract `PerformanceCalculator.amount` getter (`subclass responsibility`) cannot be reached through the factory. The calculator is a two-variant datatype, so that getter has no counterpart.
- Numbers follow JavaScript only for non-negative whole audiences: audience is a `nat` and amounts and credits are unbounded integers. Double-precision rounding for very large values is not modelled.
- Index02.StatementSplitLoops: does not model the render loop of the second `statement` (index02.js:314-316). That loop calls `amountFor` on each performance only to print, so it throws at the same first unknown type as `totalAmount()`, and the model runs only the two total loops.
- Index02.StatementSingleLoop: the source calls `amountFor` twice per performance (index02.js:34-35), once for the printed line and once for the total. The model calls it once, because the call is pure.
- Index01.Statement: the source calls `amountFor` twice per performance, once for the printed line and once for the total. The model calls it once, because the call is pure.
