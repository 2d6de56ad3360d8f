# Energy accounting core, modelled in Dafny

This project models the energy-accounting library of a peer-to-peer energy-credit
platform (`smart_energy_lib/energy_manager.py`). Users record the energy they
generate and consume and trade their surplus for credits. The library has four
parts:

- **EnergyAccount** (`account.dfy`, module `Accounts`): a per-user ledger of generated
  kWh, consumed kWh and credits. It derives surplus, deficit, efficiency,
  self-sufficiency and carbon offset from them. Its mutators are `UpdateEnergy`,
  `AddCredits` and the guarded `DeductCredits`. It is a class whose methods
  update its fields in place.
- **EnergyTransaction** (`transaction.dfy`, module `Transactions`): one transfer out of
  a source account, into an optional destination. It is one of five kinds. Its
  credits are locked in as `amount * rate` when it is built. `Execute` checks
  the source's surplus and then moves the energy and grants the credits.
- **EnergyMarketplace** (`marketplace.dfy`, module `Marketplace`): a passive registry of
  accounts by id and a table of rates by kind. It holds two maps that its
  methods reassign.
- **EnergyCalculator** (`calculator.dfy`, module `Calculator`): stateless unit
  conversions and cost, savings and solar estimates, as pure functions.

`wrappers.dfy` holds `Option` (an omitted keyword argument) and `Result` (a
constructor that raises). `scenarios.dfy` holds worked
examples. Each example is proved from the contracts alone. The same file holds
`ExecuteRegistered`, which is what a caller executing a transaction between
registered accounts can conclude about the whole registry.

Quantities are Dafny `real`. The library uses floating point. Its exact
comparisons can decide differently under rounding: `execute`'s surplus guard
(`energy_manager.py:72`), `deduct_credits`'s balance test (line 38) and the
`consumed == 0` tests (lines 16 and 21). In floating point, 0.3 − 0.1 < 0.2. The
model decides these comparisons on exact reals. Python's `float(...)`
coercions are identities on `real`.

Three invariants one would expect of this library are not enforced by its
code. The model follows the code:

- Counters and credits are not kept non-negative. `update_energy` and
  `add_credits` take negative values. `execute` takes a negative amount, because
  any amount not above the surplus passes its guard. So the model has no such
  class invariant. Lemmas that need non-negative counters say so in their
  `requires`.
- The rate table does not hold a rate for all five kinds. The code gives
  defaults for four of them. `donation` has no entry and looks up as 0
  (`energy_manager.py:87-92`, `103-104`).
- A transaction is not limited to one execution. Nothing guards against a
  second call to `execute`, and the model does not either.

A successful transaction leaves the source's `generated` unchanged only when
the destination is a different account. When the destination is the source
itself, `execute` adds the amount to both its counters. `Execute`'s contract
covers both cases.

## Model

| member | source | states |
|---|---|---|
| `Calculator.KwhToMwh` | smart_energy_lib/energy_manager.py:107-109 | the result times 1000 is the input, and a non-negative input does not grow |
| `Calculator.MwhToKwh` | smart_energy_lib/energy_manager.py:111-113 | the result divided by 1000 is the input |
| `Calculator.ConversionRoundTrip` | smart_energy_lib/energy_manager.py:107-113 | `kwh_to_mwh(mwh_to_kwh(x)) == x` and `mwh_to_kwh(kwh_to_mwh(x)) == x` for every x |
| `Calculator.CalculateCost` | smart_energy_lib/energy_manager.py:115-117 | the cost is 0 when either factor is 0, and non-negative for non-negative inputs |
| `Calculator.CostAdditive` | smart_energy_lib/energy_manager.py:115-117 | splitting an amount of energy into two parts does not change its total cost |
| `Calculator.SelfConsumed` | smart_energy_lib/energy_manager.py:121 | the self-consumed energy is the smaller of generated and consumed |
| `Calculator.CalculateSavings` | smart_energy_lib/energy_manager.py:119-122 | savings are the cost of generated or of consumed energy; at a non-negative rate at most either one, at a non-positive rate at least either one, so they are `min(g, c) * rate` for every rate |
| `Calculator.SavingsExample` | smart_energy_lib/energy_manager.py:119-122 | generated 50, consumed 80 and grid rate 0.2 give savings of 10 |
| `Calculator.EstimateSolarGeneration` | smart_energy_lib/energy_manager.py:124-126 | with efficiency in [0, 1] the estimate lies between 0 and capacity × hours; it is 0 with no sun or no capacity; the default efficiency is 0.85 |
| `Accounts.EnergyAccount.constructor` | smart_energy_lib/energy_manager.py:2-7 | the new account holds the given id, name and counters, each defaulting to 0 |
| `Accounts.EnergyAccount.CalculateSurplus` | smart_energy_lib/energy_manager.py:9-10 | the surplus is the least non-negative value at or above generated − consumed |
| `Accounts.EnergyAccount.CalculateDeficit` | smart_energy_lib/energy_manager.py:12-13 | the deficit is the least non-negative value at or above consumed − generated |
| `Accounts.EnergyAccount.CalculateEfficiency` | smart_energy_lib/energy_manager.py:15-18 | the efficiency is exactly 100 when nothing was consumed, whatever was generated; otherwise efficiency × consumed = generated × 100 |
| `Accounts.EnergyAccount.CalculateSelfSufficiency` | smart_energy_lib/energy_manager.py:20-23 | self-sufficiency never exceeds 100 or the efficiency, and equals one of them |
| `Accounts.EnergyAccount.CalculateCarbonOffset` | smart_energy_lib/energy_manager.py:25-26 | at the default factor 0.5 the offset is half the generated energy; it is non-negative for non-negative inputs and 0 when either is 0 |
| `Accounts.EnergyAccount.UpdateEnergy` | smart_energy_lib/energy_manager.py:28-32 | only the counters whose argument is given change, to that value; the credits stay (id and name are constant) |
| `Accounts.EnergyAccount.AddCredits` | smart_energy_lib/energy_manager.py:34-35 | the credits grow by exactly the amount, which may be negative, and the energy counters stay |
| `Accounts.EnergyAccount.DeductCredits` | smart_energy_lib/energy_manager.py:37-41 | returns true iff the balance covers the amount; then the credits drop by exactly the amount, otherwise they stay; a non-negative balance stays non-negative |
| `Accounts.EnergyAccount.GetMetrics` | smart_energy_lib/energy_manager.py:43-55 | the snapshot carries the raw fields and the derived metrics; its surplus and deficit are exclusive and differ by generated − consumed, and its self-sufficiency is at most 100 and at most its efficiency |
| `Accounts.SurplusDeficitExclusive` | smart_energy_lib/energy_manager.py:9-13 | surplus and deficit are non-negative and never both positive; both are 0 when generated equals consumed; surplus − deficit = generated − consumed |
| `Accounts.FullySelfSufficientIffNoDeficit` | smart_energy_lib/energy_manager.py:12-23 | with non-negative counters, self-sufficiency is 100 exactly when there is no deficit |
| `Accounts.EfficiencyAboveHundredIffSurplus` | smart_energy_lib/energy_manager.py:9-18 | once something was consumed, efficiency exceeds 100 exactly when there is a surplus |
| `Transactions.TransactionTypesExactly` | smart_energy_lib/energy_manager.py:58-62 | a kind is accepted iff it is buyback, loan, donation, purchase or transfer; "invalid" is not |
| `Transactions.EnergyTransaction.constructor` | smart_energy_lib/energy_manager.py:60-69 | a transaction of an accepted kind keeps its parties, amount, kind and rate (rate defaults to 0), and fixes its credits as amount × rate |
| `Transactions.NewTransaction` | smart_energy_lib/energy_manager.py:60-69 | building fails with InvalidTransactionType iff the kind is not one of the five; otherwise the new transaction's credits are amount × rate |
| `Transactions.EnergyTransaction.Execute` | smart_energy_lib/energy_manager.py:71-81 | succeeds iff the source's surplus covers the amount. On failure it returns "Insufficient surplus energy" and changes neither account. On success the source's consumed grows by the amount, its credits by the locked-in credits, its generated only when it is its own destination, and a distinct destination's generated grows by the amount. The source's surplus then drops by exactly a non-negative amount. A buyback lowers the source's net energy by the amount. A peer transaction keeps the two net energies' sum |
| `Marketplace.TransferKeepsTotal` | smart_energy_lib/energy_manager.py:75-79 | moving an amount from one entry of a net-energy map to another keeps the map's total |
| `Marketplace.WithdrawalLowersTotal` | smart_energy_lib/energy_manager.py:75-76 | taking an amount out of one entry lowers the total by exactly that amount |
| `Marketplace.EnergyMarketplace.constructor` | smart_energy_lib/energy_manager.py:84-92 | a new marketplace has no accounts and the rates buyback 0.15, loan 0.10, purchase 0.20, transfer 0.05 |
| `Marketplace.EnergyMarketplace.RegisterAccount` | smart_energy_lib/energy_manager.py:94-95 | the account is filed under its id, overwriting any earlier one; lookups of that id return it, other ids and the rates are unchanged |
| `Marketplace.EnergyMarketplace.GetAccount` | smart_energy_lib/energy_manager.py:97-98 | returns the account filed under the id, or null iff there is none; in a valid registry its id is the one asked for |
| `Marketplace.EnergyMarketplace.SetRate` | smart_energy_lib/energy_manager.py:100-101 | afterwards the kind's rate is the one set and every other kind keeps its rate |
| `Marketplace.EnergyMarketplace.GetRate` | smart_energy_lib/energy_manager.py:103-104 | a kind with a rate gets it; a kind without one, such as donation, gets 0 |
| `Scenarios.BuybackScenario` | smart_energy_lib/energy_manager.py:71-81 | generated 100 and consumed 40, selling 20 at 0.15, succeeds with consumed 60 and credits 3 |
| `Scenarios.LoanBeyondSurplusScenario` | smart_energy_lib/energy_manager.py:71-73 | a loan of 15 from a surplus of 10 fails with "Insufficient surplus energy" and leaves both ledgers as they were |
| `Scenarios.DeductionScenario` | smart_energy_lib/energy_manager.py:37-41 | deducting 50 from 30 credits fails; deducting 20 afterwards succeeds and leaves 10 |
| `Scenarios.InvalidTypeScenario` | smart_energy_lib/energy_manager.py:61-62 | building a transaction of kind "invalid" fails with InvalidTransactionType |
| `Scenarios.SequentialTransactionsScenario` | smart_energy_lib/energy_manager.py:71-79 | executed one after the other, two 8 kWh transactions from a 10 kWh surplus cannot both succeed |
| `Scenarios.RateLockedAtConstructionScenario` | smart_energy_lib/energy_manager.py:66-69 | a transaction priced at the marketplace's buyback rate keeps its credits after that rate is changed; donation is priced at 0 |
| `Scenarios.ExecuteRegistered` | smart_energy_lib/energy_manager.py:71-81 | executing between registered accounts keeps the registry's total net energy for a peer transaction or a failure, and lowers it by the amount for a buyback |

## Left out

- Web request handling, authentication, templates, database persistence and the cloud-service scripts: these are framework glue and I/O, not part of the accounting library.
- The marketplace's `transactions` list (`energy_manager.py:86`): the library never reads or appends to it.
- Floating-point rounding and `float(...)` coercion of non-numeric input, which raises in Python: quantities are exact reals.
- `get_metrics` returns a string-keyed dictionary; the model returns a record with one field per key.
- Concurrency: the library runs sequentially and does no locking; the model is sequential too.
- `account_id` and `name` are constants of the account: the library never reassigns them after construction.
- `if self.to_account:` is modelled as a null test: an account object is always truthy.
- Calculator.CalculateCost: states only the zero and sign cases and additivity, not the product formula itself, which would restate the body.
- Accounts.EnergyAccount.CalculateCarbonOffset: pins the value down only at the default factor; at other factors it states sign and zero cases.
- Calculator.EstimateSolarGeneration: states bounds and the zero cases, not the product formula itself.
