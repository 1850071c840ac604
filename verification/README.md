# Gold-investment ledger, modelled in Dafny

This project models the computational core of a personal gold-investment
tracker. The user records purchases of gold, has a cash balance to buy
from, and types in the bank's latest price per gram. The application
derives the average buy price, the value of the holding, profit or loss, a
buy/sell/hold recommendation, a sell-price simulation and a fee estimate.

The model has three layers.

- **The ledger** (`investment_context.dfy`, module `InvestmentContext`).
  The ledger state is `{cashBalance, totalGold, transactions, latestGoldPrice}`.
  It has four transitions:
  - `addTransaction`, a buy guarded by the cash balance;
  - `updateLatestGoldPrice`;
  - the one-shot seeding with the owner's two historical purchases;
  - the load-time defaulting of missing ids and types.

  The module also defines the average buy price.
- **The forms and cards.** These are the purchase form (`add_transaction.dfy`),
  the edit dialog with its cash-difference rule (`edit_transaction_dialog.dfy`),
  the price tracker with its recommendation (`price_tracker.dfy`), the sell
  simulation (`sell_simulation.dfy`), the tiered fee simulator
  (`transaction_fee_simulator.dfy`) and the dashboard figures and history
  order (`dashboard.dfy`). Form inputs are text. `Inputs.Field` separates
  the empty string, which the forms test for, from text that parses to NaN.
- **Runs** (`ledger_invariants.dfy`). This layer covers runs of context calls
  with arbitrary arguments, and runs that go through the forms. It proves
  the ledger invariants on both kinds of run. It then uses those invariants
  for cross-page facts. One is that the recommendation's division never has
  a zero divisor. Another is that the sell simulation at the latest price
  agrees with the dashboard's profit or loss.

Numbers are exact `real`s. JavaScript's floating point is not modelled. The
division in the recommendation is the one exception: a zero average makes it
produce ±Infinity or NaN, so `PriceTracker.Percent` models those values
explicitly. Random UUIDs are parameters. Each run lemma states as a
hypothesis that the ids drawn are non-empty and new.

Some pages ask the context for more than it offers. The context's
interface (`src/context/InvestmentContext.tsx:22-26`) has `addTransaction`,
`updateLatestGoldPrice` and `getAverageBuyPrice` only. But the edit dialog
destructures `updateTransaction` and reads a `transaction_fee` field that the
context's `Transaction` does not have. The add-cash page calls `addCash`.
The model follows the context: `addTransaction` charges `amountSpent` alone,
and the edit dialog is modelled up to the update it would request.

The dashboard's history table calls `transactions.sort(...)` on the
context's own array. Showing the dashboard therefore reorders the ledger's
history in place. Both kinds of run include that reorder as a step.

A comment in the fee simulator describes the flat tier as "< 1,000,000".
The code uses `<=`, and the model follows the code, so
`CalculateFee(1000000) == 5000`.

## Model

| member | source | states |
|---|---|---|
| Inputs.Round4 | src/pages/AddTransaction.tsx:26 | the number `toFixed(4)` writes is within half of 0.0001 of its input and a whole number of 0.0001 steps; a positive input becomes 0 exactly below 0.00005 |
| Inputs.Fixed4 | src/pages/AddTransaction.tsx:26 | the four-decimal text parses back to the rounded number |
| Inputs.PositiveNumber | src/pages/PriceTracker.tsx:24-25 | the shared price/amount guard admits exactly the inputs that parse to a number above zero, and hands that number on unchanged |
| InvestmentContext.AddTransaction | src/context/InvestmentContext.tsx:101-120 | a purchase costing more than the cash balance leaves the whole state unchanged; otherwise cash drops by exactly the amount spent (never below zero), grams rise by exactly the gold bought, exactly one buy transaction with the new id is appended after the untouched earlier ones, and the latest price is kept |
| InvestmentContext.UpdateLatestGoldPrice | src/context/InvestmentContext.tsx:122-128 | the latest price becomes the given price and cash, grams and history stay as they were |
| InvestmentContext.SeedTotals | src/context/InvestmentContext.tsx:83-89 | the seeding loop ends with the starting cash less every amount spent, and with the grams of all purchases |
| InvestmentContext.SeedTotalsValue | src/context/InvestmentContext.tsx:64-81 | the two seed purchases cost 350000 in all and bought 0.1432 grams |
| InvestmentContext.Seed | src/context/InvestmentContext.tsx:62-98 | seeding fires only on an empty history with exactly the starting cash; it then leaves 600000 cash, 0.1432 grams and the two seed buys, and keeps the latest price; otherwise the state is unchanged |
| InvestmentContext.AverageBuyPrice | src/context/InvestmentContext.tsx:130-135 | 0 for an empty history or when no positive grams were bought; otherwise the price per gram that, times the grams bought, gives back the money spent |
| InvestmentContext.WithDefaults | src/context/InvestmentContext.tsx:44-48 | loading keeps every stored transaction's position, date, price, money and grams; a missing or empty id is replaced by the id drawn for it, and a missing type becomes buy |
| InvestmentContext.Load | src/context/InvestmentContext.tsx:38-53 | without saved data the ledger starts from the initial state (950000 cash, nothing held, no price); with saved data every top-level field is kept and the transactions get their defaults |
| InvestmentContext.LoadStoredRoundTrip | src/context/InvestmentContext.tsx:40-57 | saving a ledger whose ids are non-empty and loading it back gives the same ledger, whatever ids the loader would have drawn |
| InvestmentContext.WithDefaultsDistinctIds | src/context/InvestmentContext.tsx:44-48 | loading yields pairwise distinct ids when the stored ids are distinct and the drawn ids are unique and new |
| PriceTracker.SubmitPrice | src/pages/PriceTracker.tsx:22-30 | a NaN or non-positive price leaves the ledger unchanged; a positive price becomes the latest price through the context's update |
| PriceTracker.PercentDelta | src/pages/PriceTracker.tsx:41-42 | with a non-zero average the delta is finite, and times the average it equals 100 times the price difference; a zero average gives no finite delta, and a non-zero latest price then gives an infinity of its own sign |
| PriceTracker.Classify | src/pages/PriceTracker.tsx:44-62 | a finite delta yields Sell exactly when it is at least 5, Buy exactly when it is at most -5, and Hold exactly when it is strictly between; the three outcomes are exhaustive and exclusive |
| PriceTracker.GetRecommendation | src/pages/PriceTracker.tsx:32-63 | "insufficient data" exactly when the latest price or the grams held are zero; otherwise advice carrying the latest-versus-average delta and its classification |
| PriceTracker.SignalThresholds | src/pages/PriceTracker.tsx:41-61 | with a positive average the signal is Sell exactly at 105% of the average or above, Buy exactly at 95% or below, and Hold strictly between |
| SellSimulation.Simulate | src/components/SellSimulation.tsx:30-51 | an invalid target gives no result; with no gold held the outcome is informational only; otherwise the selling value is the grams times the target, and profit or loss is the grams times the target's excess over the average buy price |
| SellSimulation.ProfitSign | src/components/SellSimulation.tsx:44-46 | with gold held the simulated result is a gain exactly when the target reaches the average buy price |
| SellSimulation.ChangeTarget | src/components/SellSimulation.tsx:24-28 | a new target clears both simulated results, so no result is shown |
| SellSimulation.Submit | src/components/SellSimulation.tsx:30-51 | a refused or informational submission leaves the card as it was; a simulation shows both results |
| SellSimulation.ResultMatchesTarget | src/components/SellSimulation.tsx:24-51 | after typing a target and submitting, a result is shown exactly when that target can be simulated |
| TransactionFeeSimulator.CalculateFee | src/components/TransactionFeeSimulator.tsx:29-33 | up to 1,000,000 the fee is the flat 5000; above that it is one thousandth of the amount |
| TransactionFeeSimulator.FeePositive | src/components/TransactionFeeSimulator.tsx:29-33 | every positive amount pays a positive fee: the flat fee, or more than 1000 |
| TransactionFeeSimulator.FeeExamples | src/components/TransactionFeeSimulator.tsx:29-33 | fee(1,000,000) = 5000, fee(2,000,000) = 2000 and fee(5,000,000) = 5000 |
| TransactionFeeSimulator.FeeNotMonotone | src/components/TransactionFeeSimulator.tsx:29-33 | the schedule is not monotone: fee(1,000,000) exceeds fee(1,000,001) |
| TransactionFeeSimulator.ProportionalTier | src/components/TransactionFeeSimulator.tsx:31-32 | inside the proportional tier the fee grows with the amount, and is below the flat fee exactly below 5,000,000 |
| TransactionFeeSimulator.SubmitAmount | src/components/TransactionFeeSimulator.tsx:42-53 | a NaN or non-positive amount is refused and no fee is computed; otherwise the fee of the parsed amount, which is positive |
| TransactionFeeSimulator.ChangeAmount | src/components/TransactionFeeSimulator.tsx:37-40 | a new amount clears the fee on display |
| TransactionFeeSimulator.Submit | src/components/TransactionFeeSimulator.tsx:44-52 | a refused amount leaves the form as it was; an accepted one shows its fee |
| TransactionFeeSimulator.FeeMatchesAmount | src/components/TransactionFeeSimulator.tsx:37-53 | after typing an amount and submitting, a fee is shown exactly when the amount is a positive number, and it is that amount's fee |
| Dashboard.CurrentGoldValue | src/pages/Dashboard.tsx:15 | the holding's value is non-negative for non-negative grams and price, and zero when either is zero |
| Dashboard.TotalInvested | src/pages/Dashboard.tsx:16 | the money invested is the same whichever order the history is in; over positive purchases it is never negative and is zero exactly when nothing was bought |
| Dashboard.ProfitLoss | src/pages/Dashboard.tsx:17 | no profit or loss is claimed without a positive latest price; otherwise profit or loss plus the total invested is the holding's current value |
| Dashboard.Insert | src/pages/Dashboard.tsx:126 | placing a transaction into a newest-first list keeps it newest-first and adds exactly that transaction |
| Dashboard.History | src/pages/Dashboard.tsx:126 | the history table lists a permutation of the transactions, with dates non-increasing |
| Dashboard.HistoryKeepsTotals | src/pages/Dashboard.tsx:126 | reordering the history changes neither the money invested nor the grams held |
| AddTransaction.DerivedGold | src/pages/AddTransaction.tsx:20-42 | the read-only gold field holds money over price rounded to four decimals when both parse and the price is positive, so gold times price misses the money by at most 0.00005 times the price; it is blank otherwise |
| AddTransaction.ChangeAmountSpent | src/pages/AddTransaction.tsx:20-30 | typing an amount updates it, keeps price and date, and leaves the gold field derived from the new inputs |
| AddTransaction.ChangePricePerGram | src/pages/AddTransaction.tsx:32-42 | typing a price updates it, keeps amount and date, and leaves the gold field derived from the new inputs |
| AddTransaction.EmptyIsCoherent | src/pages/AddTransaction.tsx:15-18 | the form starts with its gold field derived from its (blank) inputs |
| AddTransaction.Check | src/pages/AddTransaction.tsx:44-64 | refused as incomplete exactly when a field is empty; as invalid exactly when all are filled but one is NaN or not positive; for insufficient cash exactly when the amount exceeds the balance (equality accepted); otherwise the purchase carries the parsed values |
| AddTransaction.Submit | src/pages/AddTransaction.tsx:44-71 | a refused form leaves the ledger unchanged; an accepted one makes exactly one addTransaction call with the parsed purchase |
| AddTransaction.AcceptedIsRecorded | src/pages/AddTransaction.tsx:61-71 | the form's cash check implies the context's, so an accepted form appends exactly one positive buy with the parsed values and leaves non-negative cash |
| AddTransaction.AcceptedGoldIsDerived | src/pages/AddTransaction.tsx:23-26 | for a form edited only through its handlers, an accepted purchase's grams times its price equal its money up to 0.00005 times the price, the four-decimal rounding of the grams |
| AddTransaction.SeedRowsAreDerived | src/context/InvestmentContext.tsx:64-81 | the two seeded purchases' grams (0.0613 and 0.0819) are what the form derives from their money and price, and 0.0613 grams at 2448000 is not exactly 150000 |
| AddTransaction.TinyPurchaseRefused | src/pages/AddTransaction.tsx:56-59 | a purchase whose grams round to zero in four decimals, i.e. money times 20000 below the price, is refused as an invalid number |
| EditTransactionDialog.StoredFee | src/components/EditTransactionDialog.tsx:103 | a missing stored fee counts as zero, a present one as itself |
| EditTransactionDialog.Opened | src/components/EditTransactionDialog.tsx:44-52 | the dialog opens with the row's date, and with fields that parse back to the row's price, money, grams and defaulted fee |
| EditTransactionDialog.ChangeAmountSpent | src/components/EditTransactionDialog.tsx:64-68 | typing an amount re-derives the gold field by the same rule as the purchase form, leaving the other fields alone |
| EditTransactionDialog.ChangePricePerGram | src/components/EditTransactionDialog.tsx:70-74 | typing a price re-derives the gold field by the same rule as the purchase form, leaving the other fields alone |
| EditTransactionDialog.ParseFee | src/components/EditTransactionDialog.tsx:91 | an empty fee parses as zero, anything else as parseFloat does |
| EditTransactionDialog.Check | src/components/EditTransactionDialog.tsx:80-118 | refused as incomplete exactly when a required field is empty; as invalid exactly when price, money or grams is NaN or not positive; for the fee exactly when it is NaN or negative; for cash exactly when the balance less the rise in money-plus-fee goes below zero; an accepted edit targets the original id with the parsed values |
| EditTransactionDialog.CheaperEditAffordable | src/components/EditTransactionDialog.tsx:102-110 | with a non-negative balance, a valid edit that does not raise the total cost is always accepted |
| EditTransactionDialog.UntouchedEditRoundTrip | src/components/EditTransactionDialog.tsx:44-52 | saving the dialog unchanged on a positive row with a non-negative balance asks to store the row as it was, with a missing fee written as zero |
| LedgerInvariants.AddKeepsConsistent | src/context/InvestmentContext.tsx:113-118 | a buy with a new id keeps the grams equal to the history's sum, cash non-negative, cash plus money spent at the starting 950000, and ids distinct |
| LedgerInvariants.HistoryKeepsIds | src/pages/Dashboard.tsx:126 | sorting the history keeps its ids pairwise distinct |
| LedgerInvariants.SortKeepsConsistent | src/pages/Dashboard.tsx:126 | the in-place sort of the ledger's history keeps it consistent: totals, non-empty ids and distinct ids survive |
| LedgerInvariants.SortKeepsSound | src/pages/Dashboard.tsx:126 | the in-place sort also keeps every transaction positive |
| LedgerInvariants.SeedKeepsConsistent | src/context/InvestmentContext.tsx:83-95 | seeding with two distinct ids keeps the ledger consistent |
| LedgerInvariants.ReachableConsistent | src/context/InvestmentContext.tsx:30-35 | every ledger reached from the initial one by context calls and in-place sorts of the history keeps grams equal to the history's sum, cash non-negative and conserved, and ids distinct |
| LedgerInvariants.UiStepKeepsSound | src/pages/AddTransaction.tsx:56-71 | each form submission, seeding or showing of the dashboard keeps the ledger consistent, with only positive purchases and a non-negative latest price |
| LedgerInvariants.ReachableSound | src/pages/AddTransaction.tsx:44-71 | every ledger reached through the forms, the seeding and the dashboard is consistent, holds only positive purchases and has a non-negative latest price |
| LedgerInvariants.AveragePositive | src/context/InvestmentContext.tsx:130-135 | on a ledger reached through the forms, holding gold implies a positive average buy price |
| LedgerInvariants.RecommendationNeverDividesByZero | src/pages/PriceTracker.tsx:33-42 | on a ledger reached through the forms, every advice has a finite delta, with Sell exactly at 105% of the average or above and Buy exactly at 95% or below |
| LedgerInvariants.InvestedIsCashSpent | src/pages/Dashboard.tsx:16 | the dashboard's total invested equals 950000 minus the cash balance |
| LedgerInvariants.SeedingFiresOnEmptyHistory | src/context/InvestmentContext.tsx:63 | in a consistent ledger seeding fires exactly on an empty history, and never twice in a row |
| LedgerInvariants.SeededLedger | src/context/InvestmentContext.tsx:63-95 | seeding the initial ledger leaves 600000 cash, 0.1432 grams in two buys, and an average price of 350000 / 0.1432 |
| LedgerInvariants.SimulationAtLatestPriceMatchesDashboard | src/components/SellSimulation.tsx:44-46 | on a ledger reached through the forms that holds gold and has a price, simulating a sale at the latest price gives the dashboard's profit or loss |

## Left out

- localStorage reads and writes and `JSON.parse`/`JSON.stringify` are I/O. Only the defaulting step and the field-for-field shape of a saved ledger are modelled.
- `crypto.randomUUID` is replaced by ids supplied by the caller. The run lemmas assume these ids are non-empty and new.
- Toasts, React state wiring, the effect scheduling of the seeding (modelled as an event that may occur at any point of a run) and navigation are UI side effects.
- The stale closure in `addTransaction` is not modelled: it checks the rendered state but updates the previous state. The model assumes one update per render, where the two coincide.
- `parseFloat` of text, `Intl.NumberFormat` and date-fns formatting are string handling. A field is modelled by its parse result, and a date by its year, month and day.
- Inputs.Round4: rounds the exact quotient. The program rounds a binary floating-point quotient, and `toFixed` switches to exponential notation from 1e21 up; neither is modelled.
- Dashboard.History: states a newest-first permutation but not the stability of JavaScript's sort among equal dates. The runs use this permutation as the order the in-place sort leaves behind.
- IEEE-754 arithmetic is replaced by exact reals, except for the recommendation's division by a zero average.
- Dates are compared by a numeric key. This matches `Date.getTime` order for valid dates; invalid date strings are left out.
- `updateTransaction` and `addCash` are called by the edit dialog and the add-cash page but not defined by the context. The edit dialog is modelled up to the update request it would send. The add-cash page is left out.
- Authentication, routing and the header have no ledger logic.
